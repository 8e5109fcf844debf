# A verified model of the raft library

This project models TiKV's Raft library in Dafny and proves what it promises: that a cluster running it never
disagrees about a committed entry, and that the data structures each node is built from do what the protocol needs.
It covers five connected pieces.

**The cluster.** `RaftNode` gives one node's reactions as functions: `step` and its handlers, campaigns, pre-votes,
polling, appends, the four ways of committing (quorum match, append and heartbeat, commit information in vote
messages, read-index replies), group commit, and the Safe read-index path. `Cluster` interleaves the reactions of any
number of nodes under one fixed, possibly joint, voter configuration. The network keeps every message that was ever
sent, so a message may be lost, delayed, reordered or delivered again; nodes may step down and restart at any time.
`Ledger` and `LedgerActions` hold the proof idea as an abstract history of campaigns, votes, reigns and
acknowledgements; the `Cluster*` modules show that every reaction of every node is one of its actions.
`ClusterTheorems` states the results on the nodes alone, for every finite run. What a reaction must not leave undone is
said beside that, in terms of ballots, quorums and what peers hold: `CommitRule`, `Elections`, `ReadReplies`, `ReadAskers`
and `Reactions`; `PreVoteRun` is a run that elects a leader through pre-votes. `RaftObject.Raft` is the same node updated in place, each method proved to do what the function says.

**The log.** `TwoLayerLog` has the storage, the unstable entries and the log on top of them as classes, proved to behave
as one simple log (`AbstractLog`). `RawNode` is the ready/advance pipeline; its invariant says that the application
receives one gapless stream: its state is what a sequence of the moves of `DeliveryModel` leads to, and every such
sequence delivers in order, once, and without gaps. `ReadyRecords` says by position what a persistence notice covers. `LogBridge` shows that the cluster's log is this log before any
compaction.

**Membership.** `ConfModel` has the changer's three operations, with the exact conditions under which each is refused,
the invariant of all change sequences, and quorum overlap; `ConfRoles` says which roles every id then has. `Changer` and `Restore` are the in-place forms, up to the
restore round trip.

**Quorums.** `Quorum` and `CommittedIndex` have vote counting and the committed index by sorting, with and without commit
groups, against order-free definitions.

**Flow control.** `Ring.Inflights` is the resizable ring buffer; `PeerProgress` and `PeerWindow` are the progress state
machine; `Backtrack` is the reject/hint exchange; `Sending` is the send loop; `Uncommitted` and `PendingConf` are the
leader's two admission rules.

## What turned out to be false

* "No event kills a node" is false in four cases, and only in those (`ClusterTheorems.PanicsExactly`, for the events of a
  cluster run). A node that is still in term 0 refuses a pre-vote request from a node with an empty log and a lower
  priority, and `send` dies because the refusal carries term 0; `ClusterTheorems.PanicReachable` gives such a run with
  two nodes. A node dies of winning an election while part of its log is not yet reported to be persisted: the assertion
  in `become_leader` (src/raft.rs:1252) takes it that everything is persisted before a vote request is sent, but it tests
  what the notice has said, and votes may come back before the notice. `EarlyElection.EarlyWinKills` gives such a run with
  three nodes. A leader dies of an empty batch of proposals (`ClusterTheorems.EmptyBatchKills`), and any node dies of an
  assignment to commit group 0 (`ClusterTheorems.GroupZeroKills`).
* "A ReadIndex answer is linearizable" needs the condition that no context enters the queue of one term's leader twice. A
  context may arrive again while it is queued, may enter the queues of leaders of different terms, and may be repeated
  freely to a single voter. Only the two read theorems ask for the condition. A request that is queued twice breaks even
  the reads that are made once: `StaleRead.DuplicatesBreakReads` gives a run of three nodes in which a request that was
  delivered again after its release, together with a late heartbeat response, makes a deposed leader answer another
  request with an index that a newer leader has already passed.
* "A pending snapshot leaves nothing to deliver" (the assertion at src/raw_node.rs:536) is false once the apply-ahead limit
  is set on a follower, which the setter allows. `RawNode.RawNode.TakeReady` dies in exactly that case, or if a new leader
  still has records, and `RawNode.SnapshotAssertionFails` gets there from an empty log. With limit 0 it never happens
  (`RawNode.RawNode.NothingPastSnapshot`).
* "A change index that is pending names an entry" is false: `PendingConf.DroppedBatchBlocks` says exactly when a batch moves
  the pending index although nothing of it is appended, and `PendingConf.DroppedBatches` gives a batch that is dropped for
  its size and one that is dropped for an unreadable entry. `PendingConf.AdmittedAgain` says exactly when changes are
  admitted again. "At most one pending change" holds all the same.

One bound is deliberately not assumed: that a peer's next index is at most one past the leader's last index. A pre-vote
request does not raise its receiver's term, yet it may move the receiver's commit index through `maybe_commit_by_vote`,
and the receiver answers an append below its commit index with that index, to a leader that may not hold it.
`Cluster.PeerOk` and `Cluster.AnchorOk` therefore carry the weaker bound "or what the peer has acknowledged", and
`LedgerActions.VouchKeeps` shows why such an acknowledgement is harmless.

## Model

| member | source | states |
|---|---|---|
| `ClusterTheorems.ElectionSafety` | src/raft.rs:1183-1199 | In every run, two nodes that lead the same term, at any two moments, are the same node; pre-votes, repeated votes and duplicated responses included. |
| `ClusterTheorems.LogMatching` | src/raft_log.rs:267-297 | In every run, two logs of any nodes at any moments that agree on the term at an index are equal up to it. |
| `ClusterTheorems.LogsWellFormed` | src/raft.rs:1050-1064 | Along every log of every run indexes are consecutive, terms never decrease, and each term lies between 1 and the node's term. |
| `ClusterTheorems.StateMachineSafety` | src/raft.rs:2506-2581 | In every run, any two nodes at any moments agree on every entry at or below both their commit indexes. |
| `ClusterTheorems.NothingTakenBack` | src/raft.rs:1015-1020 | Over a run a node's term and commit index never decrease and a vote is never changed within its term. |
| `ClusterTheorems.LeaderCompleteness` | src/raft.rs:946-957 | What a leader committed from its own term is in the log of every leader of a later term at every moment, and in its own from then on. |
| `ClusterTheorems.CommitOrigin` | src/raft.rs:2226-2257 | Whichever of the commit paths moved a node's commit index, some leader had by then committed at least that index from its own term with the same entries. |
| `ClusterTheorems.LaterLeadersHold` | src/raft_log.rs:442-444 | Whatever any node has committed, some leader had committed from its own term with the same entries, and the log of every leader of a later term than that one's starts with it, at every moment of the run. |
| `ClusterTheorems.PanicsExactly` | src/raft.rs:1252 | In every reachable state an event kills a node if and only if it is a pre-vote request with index 0 to a node of term 0 with a higher priority, makes a node win while part of its log is not known to be persisted, is an empty batch proposed to a leader, or an assignment to commit group 0; so no heartbeat, append or read does. |
| `ClusterTheorems.PanicReachable` | src/raft.rs:632-655 | From a fresh pair of voters with pre-vote on and unequal priorities, a run of one step leads to a state where a delivery is fatal. |
| `EarlyElection.EarlyWinKills` | src/raft.rs:1233-1284 | A run of three nodes after which a granted vote is fatal: the new leader's own earlier entry is not yet reported to be persisted. |
| `ClusterTheorems.EmptyBatchKills` | src/raft.rs:2071-2073 | Every leader of every run dies of an empty batch. |
| `ClusterTheorems.GroupZeroKills` | src/raft.rs:540-553 | Every node of every run dies of an assignment that puts a peer, known or not, into group 0. |
| `ClusterTheorems.ReadsAreLinearizable` | src/raft.rs:2152-2182 | While no context enters the queue of one term's leader twice, every read state on any node answers a request that reached a leader at an earlier step, and its index is at least every commit index any node had by then. |
| `ClusterTheorems.RepliesAreLinearizable` | src/raft.rs:1901-1914 | The same for every read-index reply on the network, including earlier requests released by a later context. |
| `StaleRead.DuplicatesBreakReads` | src/read_only.rs:85-128 | The condition is needed: in this run a request enters the queue again after its release, and another request, made once, is answered with an index below what was committed whenever it can have been made. |
| `ClusterTheorems.NeverRepeated` | src/read_only.rs:85-98 | The history marks a repeated request only if some context did enter the queue of one term's leader twice. |
| `ClusterExample.CommittingRun` | src/raft.rs:1290-1336 | Runs in which a leader is elected and commits exist, so the results about runs are not empty. |
| `ClusterExample.FreshRuns` | src/raft.rs:340-396 | Every configuration with voters has a fresh cluster to start from. |
| `ClusterRuns.NextSafe` | src/raft.rs:1353-1544 | Every event from a state that satisfies the cluster invariant leads to one that does, and the history only grows. |
| `ClusterRuns.InitSafe` | src/raft.rs:340-396 | A fresh cluster satisfies the invariant. |
| `ClusterRuns.MildReact` | src/raft_log.rs:304-318 | No event moves a commit index back, only a campaign takes a follower out of its role, and a node that goes on collecting votes cannot win with its own alone. |
| `ClusterSafety.ReactOk` | src/raft.rs:1353-1544 | From an invariant state every reaction is fatal exactly in the four cases and otherwise is a step the history and the invariant can follow; queues stay sound even if reads are repeated. |
| `ClusterFollower.HandleAppendOk` | src/raft.rs:2506-2565 | A follower that handles any append that was ever sent to it keeps the invariant and does not die. |
| `ClusterFollower.HandleHeartbeatOk` | src/raft.rs:2569-2581 | A heartbeat never commits past the follower's log and keeps the invariant. |
| `ClusterFollower.HandleVoteRequestOk` | src/raft.rs:1492-1536 | Granting or refusing a vote or pre-vote, with the commit it may cause, keeps the invariant. |
| `ClusterFollower.HandleReadRespOk` | src/raft.rs:2438-2457 | A read-index reply, with the commit it may cause, keeps the invariant. |
| `ClusterElection.HandleVoteRespOk` | src/raft.rs:2323-2337 | Counting a vote or pre-vote response keeps the invariant, and dies exactly when it wins the election too early. |
| `ClusterElection.HupOk` | src/raft.rs:1546-1588 | Starting a campaign keeps the invariant, and dies exactly when the node's own vote wins too early. |
| `ClusterLeader.HandleAppendRespOk` | src/raft.rs:1656-1871 | A leader that handles any acknowledgement or rejection, with the commit it may cause, keeps the invariant. |
| `ClusterLeader.MaybeCommitOk` | src/raft.rs:946-957 | Committing by matched indexes, with or without commit groups, keeps the invariant. |
| `ClusterLeader.PersistedOk` | src/raft.rs:1067-1089 | A notice that any part of the log is persisted, to any role, with the commit it may cause on a leader, keeps the invariant. |
| `ClusterLeader.AssignGroupsOk` | src/raft.rs:540-553 | Assigning commit groups, with the commit it may cause, keeps the invariant and dies exactly of a group 0. |
| `ClusterLeader.EnableGroupsOk` | src/raft.rs:521-526 | Turning commit groups on or off, with the commit it may cause, keeps the invariant. |
| `ClusterLeader.UnreachableOk` | src/raft.rs:2027-2050 | Probing a peer that is reported unreachable keeps the invariant. |
| `ClusterLeader.ResizeOk` | src/raft.rs:2968-2972 | Changing the capacity of a peer's window keeps the invariant. |
| `ClusterLeader.SendAppendOk` | src/raft.rs:801-859 | Every append a leader sends is anchored in its log. |
| `ClusterLeader.SendHeartbeatOk` | src/raft.rs:869-884 | Every heartbeat carries a commit index that its receiver has acknowledged. |
| `ClusterReads.HandleHeartbeatRespOk` | src/raft.rs:1873-1915 | A heartbeat response that completes a read quorum releases only covered reads. |
| `ClusterReads.NewRecordOk` | src/raft.rs:2152-2182 | When a request reaches a leader, either its commit index covers every node's, or a quorum has already left its term. |
| `CommitRule.AckCommits` | src/raft.rs:1821-1848 | In every run, an acknowledgement that is news to a leader, whatever state the peer is in, moves that peer's matched index and no other; the leader then commits the largest index that enough peers hold, exactly if it is above its commit index and of its term. |
| `CommitRule.EnoughIsQuorum` | src/quorum/joint.rs:47-51 | Without commit groups, enough peers are exactly a joint quorum. |
| `CommitRule.JointMeaning` | src/quorum/joint.rs:47-51 | The joint index is the largest index that enough peers hold, with and without commit groups. |
| `CommitRule.NoticeRule` | src/raft.rs:1067-1089 | A persistence notice moves the leader's own matched index, and it commits by the same rule. |
| `CommitRule.AssignRule` | src/raft.rs:540-553 | A listed peer gets the last group listed for it, and a leader that uses groups commits by the same rule. |
| `CommitRule.EnableRule` | src/raft.rs:522-527 | Turning groups off lets a leader commit by the rule without groups; turning them on commits nothing. |
| `CommitRule.VoteCommits` | src/raft.rs:2226-2237 | A node that does not lead commits an advertised index above its own exactly if its log has the advertised term there. |
| `Elections.CampaignDoes` | src/raft.rs:1290-1336 | A leader ignores a campaign. Anyone else decides it at once exactly if it is a quorum by itself, and dies then if its log is not known to be persisted; otherwise it asks every other voter, for a pre-vote without leaving its term, for a vote in the next one. |
| `Elections.PreVoteDecides` | src/raft.rs:2259-2294 | With a quorum of grants a pre-candidate starts the real election for the next term and asks every other voter; when refusals leave no quorum it follows; otherwise only the ballot is added. |
| `Elections.VoteDecides` | src/raft.rs:2259-2294 | With a quorum of grants a candidate leads its term with one entry more, or dies if its log is not known to be persisted; when refusals leave no quorum it follows; otherwise only the ballot is added. |
| `Elections.RequestAnswered` | src/raft.rs:1492-1536 | A request is granted exactly to a log that is at least as new, by a node free to vote, under the priority rule, and is answered to its sender; a refusal carries what is committed, and kills a node of term 0. |
| `Elections.LaterRequestAnswered` | src/raft.rs:1357-1536 | A real request of a later term first makes a follower of that term without vote and leader, which then answers it. |
| `PreVoteRun.ElectsThroughPreVotes` | src/raft.rs:1290-1336 | A run of three nodes that elects a leader through a pre-vote. |
| `ReadReplies.QuorumReleases` | src/raft.rs:1901-1914 | In every run, the response that completes a quorum for a queued read releases it and everything queued before it, each with its recorded index, remote ones to exactly the node they came from, local ones as read states, and nothing else; short of a quorum only the acknowledgement is added. |
| `ReadAskers.RepliesGoToAskers` | src/raft.rs:2908-2923 | In every run a read-index reply goes to a node whose application asked for that read, and answers a request of that node that was handed to the replying leader in the term of the reply. |
| `Reactions.AppendDoes` | src/raft.rs:2506-2565 | Whoever gets an append of a leader follows it and answers: the commit index, a refusal with the largest index whose term is not above the anchor's, or the new last index after taking everything from the first difference on. A properly built append kills no node, whatever its log. |
| `Reactions.HeartbeatDoes` | src/raft.rs:2569-2581 | Whoever gets a heartbeat follows its sender, commits as far as it says, dies past the end, and answers with its context. |
| `Reactions.RejectionDoes` | src/raft.rs:1656-1819 | A rejected replicating peer is probed again right after its match unless the rejection is old; any other keeps its state and is sent to from its hint, never below its match, only if it rejects the last probe. |
| `Reactions.NewsMovesPeer` | src/raft.rs:1822-1840 | News makes a probed peer replicate right after it and frees the window of a replicating one up to it. |
| `Reactions.OldAck` | src/raft.rs:1771-1824 | An acknowledgement that is no news marks the peer active and raises its commit and next index, nothing more. |
| `Reactions.SnapshotPeerProbed` | src/raft.rs:1828-1838 | A peer that waits for a snapshot is probed again exactly when it holds as much. |
| `Reactions.ResponseResumes` | src/raft.rs:1873-1903 | A heartbeat response resumes the peer and frees one place of a full window; only one that names a read does more, and then only to reads. |
| `Reactions.ReadRequestDoes` | src/raft.rs:2152-2182 | A leader drops, answers or queues a read with its commit index, the asking node and its own acknowledgement. |
| `Reactions.ReadIsRelayed` | src/raft.rs:2426-2437 | A follower passes a read on to its leader in the name of whoever made it; a node without a leader drops it. |
| `Reactions.ReadAnswerKept` | src/raft.rs:2438-2457 | A follower keeps the answer and commits its index if the log has the leader's term there. |
| `Reactions.EarlierTerm` | src/raft.rs:1423-1485 | A message of an earlier term changes nothing; some senders are told the current term. |
| `Reactions.LaterResponse` | src/raft.rs:1393-1422 | A response of a later term, other than a granted pre-vote, makes a follower of that term without vote and leader, and nothing more. |
| `Reactions.ProposeDoes` | src/raft.rs:1050-1064 | Proposals are appended in order with the leader's term and the next indexes. |
| `Reactions.AppendSent` | src/raft.rs:801-859 | An append is anchored right before the peer's next index and carries what follows; a probed peer is paused by entries, a replicating one moves on past them. Nothing goes to a paused peer, nor to one that waits for a snapshot. |
| `Reactions.HeartbeatSent` | src/raft.rs:862-884 | A heartbeat tells a peer no more than it holds and carries a read only while that is queued. |
| `Reactions.StepDownDoes` | src/raft.rs:1155-1175 | Stepping down and restarting keep term, vote, log and commit index, and drop the queued reads. |
| `Reactions.LostPeerProbed` | src/raft.rs:2027-2050 | A replicating peer that is reported lost is probed right after its match. |
| `Reactions.ResizeDoes` | src/raft.rs:2968-2972 | A window is full exactly from its new capacity on and keeps its items; clearing the groups changes nothing else. |
| `Ledger.LaterLeaderHolds` | src/raft.rs:946-957 | In the history, what the leader of a term committed is held by every leader of a later term. |
| `Ledger.ChosenNotBlocked` | src/raft.rs:946-957 | An entry that a quorum acknowledged in its own term can never be one that a quorum has passed over. |
| `LedgerActions.VoteKeeps` | src/raft.rs:1494-1502 | A vote for a log that is at least as new keeps the history sound. |
| `LedgerActions.ElectKeeps` | src/raft.rs:1233-1284 | A quorum of votes makes one leader, whose log holds everything that can still commit. |
| `LedgerActions.AcceptKeeps` | src/raft_log.rs:267-297 | Storing a leader's entries and acknowledging them keeps the history sound. |
| `LedgerActions.VouchKeeps` | src/raft.rs:2511-2522 | Acknowledging the commit index to a leader whose append lies below it keeps the history sound, even if that leader lacks it. |
| `LedgerActions.CommitKeeps` | src/raft_log.rs:530-542 | Committing an index of the leader's own term that a quorum acknowledged keeps the history sound. |
| `RaftObject.Raft.Step` | src/raft.rs:1353-1544 | Handles a message of any term as the node model says, messages sent included, and dies exactly when it does. |
| `RaftObject.Raft.HandleAppend` | src/raft.rs:2506-2565 | Stores, refuses with a hint, or answers with the commit index, as the node model says. |
| `RaftObject.Raft.HandleHeartbeat` | src/raft.rs:2569-2581 | Commits and answers as the node model says. |
| `RaftObject.Raft.HandleAppendResp` | src/raft.rs:1656-1871 | Updates the peer's progress and the commit index as the node model says; what that has to be is stated by `CommitRule.AckCommits`, `Reactions.OldAck` and `Reactions.RejectionDoes`. |
| `RaftObject.Raft.HandleHeartbeatResp` | src/raft.rs:1873-1915 | Frees the window, counts the read acknowledgement and releases reads as the node model says. |
| `RaftObject.Raft.HandleVoteRequest` | src/raft.rs:1492-1536 | Grants or refuses as the node model says. |
| `RaftObject.Raft.HandleVoteResp` | src/raft.rs:2323-2337 | Counts the vote and commits by it as the node model says. |
| `RaftObject.Raft.StepCandidate` | src/raft.rs:2298-2353 | A candidate's and pre-candidate's reactions. |
| `RaftObject.Raft.StepFollower` | src/raft.rs:2355-2461 | A follower's reactions, forwarding reads included. |
| `RaftObject.Raft.StepLeader` | src/raft.rs:2052-2223 | A leader's reactions to responses and reads. |
| `RaftObject.Raft.Reset` | src/raft.rs:1015-1044 | Clears votes, reads and leader, and restarts every peer's progress; the node itself matches what it knows to be persisted. |
| `RaftObject.Raft.ResetProgress` | src/raft.rs:1033-1043 | The loop over the progress map resets every peer and gives the node its own persisted index. |
| `RaftObject.Raft.BecomeFollower` | src/raft.rs:1155-1175 | New term and leader, role follower. |
| `RaftObject.Raft.BecomeCandidate` | src/raft.rs:1183-1199 | Next term, own vote. |
| `RaftObject.Raft.BecomePreCandidate` | src/raft.rs:1206-1224 | Keeps term and vote. |
| `RaftObject.Raft.BecomeLeader` | src/raft.rs:1233-1284 | Dies exactly when part of the log is not known to be persisted; otherwise appends one empty entry and replicates to itself. |
| `RaftObject.Raft.AppendEntry` | src/raft.rs:1050-1064 | The loop stamps the term and consecutive indexes on the proposed entries. |
| `RaftObject.Raft.PollElection` | src/raft.rs:2259-2294 | Won makes a leader, or dies with it; lost makes a follower. |
| `RaftObject.Raft.PollPre` | src/raft.rs:2259-2294 | Counts a pre-vote as the node model says; that a quorum starts the election and refusals end it is stated by `Elections.PreVoteDecides`. |
| `RaftObject.Raft.CampaignElection` | src/raft.rs:1290-1336 | Votes for itself and asks every other voter for the next term. |
| `RaftObject.Raft.CampaignPre` | src/raft.rs:1290-1336 | Asks every other voter for a pre-vote without raising the term. |
| `RaftObject.Raft.RequestVotes` | src/raft.rs:1311-1332 | The loop asks every other voter, with the node's last index, last term and commit information, and sends nothing else. |
| `RaftObject.Raft.Hup` | src/raft.rs:1546-1588 | A leader ignores it; otherwise a pre-vote or an election starts. |
| `RaftObject.Raft.MaybeCommit` | src/raft.rs:946-957 | Commits the jointly committed index if it has the leader's term. |
| `RaftObject.Raft.MaximalCommittedIndex` | src/quorum/joint.rs:47-51 | The smaller of the two halves' committed indexes. |
| `CommittedIndex.ComputeJoint` | src/quorum/joint.rs:47-51 | Sorting and scanning each half gives the joint committed index. |
| `RaftObject.Raft.CommitByVote` | src/raft.rs:2226-2257 | Commits the advertised index if the log has the advertised term there. |
| `RaftObject.Raft.CommitMatching` | src/raft_log.rs:530-542 | Commits an index whose term matches. |
| `RaftObject.Raft.CommitTo` | src/raft_log.rs:304-318 | Never moves back and dies past the end. |
| `RaftObject.Raft.FindConflict` | src/raft_log.rs:200-216 | The loop finds the first entry whose term differs. |
| `RaftObject.Raft.MaybeAppend` | src/raft_log.rs:267-297 | Refuses, dies or stores as the node model says, and forgets that replaced entries were persisted. |
| `RaftObject.Raft.ReleaseReads` | src/raft.rs:2908-2923 | The loop queues local reads in order and answers remote ones as the node model says; to whom is stated by `ReadReplies.QuorumReleases` and `ReadAskers.RepliesGoToAskers`. |
| `RaftObject.Raft.HandleReadIndex` | src/raft.rs:2152-2182 | Drops, answers at once or queues a read. |
| `RaftObject.Raft.CountReadAck` | src/raft.rs:1901-1914 | Releases everything up to a read that has a quorum. |
| `RaftObject.Raft.HasQuorum` | src/tracker.rs:357-362 | Vote counting decides whether a set of nodes holds a majority of both halves. |
| `RaftObject.Raft.OnPersistEntries` | src/raft.rs:1067-1089 | A notice about an entry the log has moves `persisted` in any role; a leader also counts its own log that far and may commit by it. |
| `RaftObject.Raft.SendHeartbeat` | src/raft.rs:862-884 | Carries the smaller of the matched and commit index. |
| `RaftObject.Raft.Propose` | src/raft.rs:2070-2150 | A leader appends, and dies of an empty batch; anybody else does nothing. |
| `RaftObject.Raft.EnableGroupCommit` | src/raft.rs:521-526 | Turning groups off may let a leader commit. |
| `RaftObject.Raft.AssignCommitGroups` | src/raft.rs:540-553 | The loop assigns the known peers in order, dies of a group 0, and may let a leader commit. |
| `RaftObject.Raft.HandleUnreachable` | src/raft.rs:2027-2050 | A peer that replicated is probed again. |
| `RaftObject.Raft.AdjustMaxInflight` | src/raft.rs:2968-2972 | Changes the capacity of a known peer's window. |
| `TwoLayerLog.RaftLog.Term` | src/raft_log.rs:140-158 | The term of the one log, 0 outside it; storage never fails. |
| `TwoLayerLog.RaftLog.FirstIndex` | src/raft_log.rs:165-170 | One past the one log's base, whichever layer knows it. |
| `TwoLayerLog.RaftLog.LastIndex` | src/raft_log.rs:177-182 | The one log's last index, whichever layer knows it. |
| `TwoLayerLog.RaftLog.MatchTerm` | src/raft_log.rs:256-258 | Whether the one log has the term at the index. |
| `TwoLayerLog.RaftLog.IsUpToDate` | src/raft_log.rs:442-444 | Compares last term, then last index, of the one log. |
| `TwoLayerLog.RaftLog.FindConflict` | src/raft_log.rs:200-216 | The first entry whose term differs from the one log's. |
| `TwoLayerLog.RaftLog.FindConflictByTerm` | src/raft_log.rs:227-253 | The largest index with a term not above the given one; past the end, the index itself. |
| `TwoLayerLog.RaftLog.MaybeAppend` | src/raft_log.rs:267-297 | Refuses, dies or replaces the tail of the one log from the conflict on, lowering `persisted`, and keeps every invariant. |
| `TwoLayerLog.RaftLog.Append` | src/raft_log.rs:382-403 | Replaces the tail of the one log, also where storage still holds stale entries. |
| `TwoLayerLog.RaftLog.CommitTo` | src/raft_log.rs:304-318 | Raises the commit index only. |
| `TwoLayerLog.RaftLog.MaybeCommit` | src/raft_log.rs:530-542 | Commits exactly when the index is news and has the term. |
| `TwoLayerLog.RaftLog.Restore` | src/raft_log.rs:696-717 | The one log becomes the snapshot; `persisted` does not pass the old commit index. |
| `TwoLayerLog.RaftLog.StableSnap` | src/raft_log.rs:362-364 | Once storage has the snapshot, forgetting it leaves the one log as it was. |
| `TwoLayerLog.RaftLog.StableEntries` | src/raft_log.rs:357-359 | Once storage has the entries, forgetting them leaves the one log as it was. |
| `TwoLayerLog.RaftLog.MaybePersist` | src/raft_log.rs:545-574 | Moves `persisted` exactly to an index that is news, below the offset and has the term in the one log. |
| `TwoLayerLog.RaftLog.MaybePersistSnap` | src/raft_log.rs:577-604 | Moves `persisted` to a snapshot that is news. |
| `TwoLayerLog.RaftLog.Slice` | src/raft_log.rs:646-693 | The size-limited slice of the one log, whichever layers it comes from; compacted indexes are an error. |
| `TwoLayerLog.RaftLog.Entries` | src/raft_log.rs:406-418 | The size-limited rest of the one log. |
| `TwoLayerLog.RaftLog.Scan` | src/raft_log.rs:615-642 | The pages put together are the slice, up to the page that stopped the scan. |
| `TwoLayerLog.RaftLog.NextEntriesSince` | src/raft_log.rs:447-462 | The next page of what may be applied. |
| `TwoLayerLog.RaftLog.HasNextEntriesSince` | src/raft_log.rs:481-485 | Whether something may be applied after an index. |
| `TwoLayerLog.Unstable.TruncateAndAppend` | src/log_unstable.rs:162-183 | Cuts and appends, keeping indexes consecutive and the size exact. |
| `TwoLayerLog.Unstable.StableEntries` | src/log_unstable.rs:101-126 | Forgets the entries and moves the offset past them. |
| `TwoLayerLog.Unstable.Restore` | src/log_unstable.rs:150-155 | Holds the snapshot only. |
| `TwoLayerLog.Storage.Append` | src/storage.rs:321-345 | Overwrites the tail from the first new entry on. |
| `TwoLayerLog.Storage.ApplySnapshot` | src/storage.rs:242-259 | Replaces everything, or refuses an old snapshot. |
| `TwoLayerLog.Storage.Term` | src/storage.rs:478-493 | The term inside the range that the contract names. |
| `TwoLayerLog.Storage.Entries` | src/storage.rs:443-475 | The size-limited slice, or the compacted error. |
| `LogPages.Limit` | src/util.rs:54-77 | The loop takes entries while they fit. |
| `LogPages.LimitMeaning` | src/util.rs:54-77 | A page is the longest prefix within the limit, but never empty. |
| `LogPages.LimitConcat` | src/raft_log.rs:646-693 | A limited first part that came back short is already the limited whole. |
| `LogBridge.PlainAppend` | src/raft_log.rs:267-297 | A node of the cluster model appends exactly as the two-layer log does, conflict included. |
| `LogBridge.PlainLastUpTo` | src/raft_log.rs:227-253 | The two searches for a term agree. |
| `AbstractLog.AppendMeaning` | src/raft_log.rs:267-297 | The one log refuses exactly without the anchor; stored, it agrees with every entry of the append, keeps what was before the first difference, and is untouched if there is none. |
| `AbstractLog.ConflictMeaning` | src/raft_log.rs:200-216 | The conflict is the first entry whose term differs. |
| `AbstractLog.ReplaceMeaning` | src/raft_log.rs:382-403 | Putting entries in keeps everything before them and has nothing after them. |
| `AbstractLog.LastUpToMeaning` | src/raft_log.rs:227-253 | The largest index up to the given one whose term is not above the given one. |
| `RawNode.RawNode.TakeReady` | src/raw_node.rs:491-563 | Dies exactly when a new leader still has records of entries or a snapshot, or when entries may be applied past a pending snapshot; otherwise it hands out the snapshot, or the next page if one is due, and the stream stays gapless. |
| `RawNode.RawNode.NothingPastSnapshot` | src/raw_node.rs:529-542 | Something is due past a pending snapshot exactly when the commit index and what may be applied reach past it; with limit 0 never. |
| `RawNode.SnapshotAssertionFails` | src/raft.rs:614-616 | From an empty log: a snapshot, an append after it and a limit set on the follower make ready die. |
| `RawNode.RawNode.SetLimit` | src/raft.rs:614-616 | Sets the apply-ahead limit in any role. |
| `RawNode.RawNode.BecomeFollower` | src/raft.rs:1155-1168 | Takes the limit away and restarts every peer's progress. |
| `RawNode.RawNode.BecomeLeader` | src/raft.rs:1233-1284 | Dies of a follower and exactly when part of the log is not known to be persisted; otherwise the log gets one empty entry. |
| `RawNode.RawNode.BecomeCandidate` | src/raft.rs:1183-1199 | Next term and own vote; dies of a leader. |
| `RawNode.RawNode.GenLightReady` | src/raw_node.rs:461-481 | After the assertion of ready: delivers the size-limited page right after the application's position, or nothing exactly when nothing is due. |
| `RawNode.RawNode.CommitReady` | src/raw_node.rs:601-617 | Stabilising what storage has taken changes neither the log nor the stream, and takes over the hard state and the role. |
| `RawNode.RawNode.OnPersistReady` | src/raw_node.rs:630-656 | Drains exactly the records up to the number; `persisted` becomes their last snapshot or their last entry after it, if that is still the log's, and in particular the last drained record's last entry if that was written and not replaced; a leader's own matched index follows, and it commits what its peers' progress then allows. |
| `RawNode.RawNode.HandleAck` | src/raft.rs:1760-1871 | A leader that hears from a peer moves that peer's matched index and, if that is news, commits what the progress map then allows. |
| `RawNode.RawNode.CommitQuorum` | src/raft.rs:946-957 | Commits the jointly committed index of the progress map, exactly if it is news and has the leader's term. |
| `RawNode.RawNode.TakeRecords` | src/raw_node.rs:630-648 | The loop drops the records up to the number and finds the last snapshot and the last entry after it, by position as `ReadyRecords.SnapshotDrained` and `ReadyRecords.EntriesDrained` say. |
| `ReadyRecords.FrontMeaning` | src/raw_node.rs:633-637 | The drained records are the longest run from the front whose numbers are at most the given one. |
| `ReadyRecords.SnapshotDrained` | src/raw_node.rs:639-643 | The snapshot found is that of the last drained record that has one. |
| `ReadyRecords.EntriesDrained` | src/raw_node.rs:645-648 | The entry found is the last entry of the last drained record that has entries, from that snapshot on. |
| `RawNode.UpdatedMeaning` | src/tracker/progress.rs:136-148 | A peer's matched index follows what it is known to have, and no other peer's moves. |
| `RawNode.DueMeaning` | src/raft_log.rs:465-485 | Something is due exactly if some committed entry within what may be applied is not handed out or compacted. |
| `RawNode.RawNode.AdvanceAppend` | src/raw_node.rs:682-700 | The hard state then differs only by the commit index, which is reported exactly when it moved, and the stream stays gapless. |
| `RawNode.RawNode.AdvanceAppendAsync` | src/raw_node.rs:710-712 | The asynchronous form keeps log and stream. |
| `RawNode.RawNode.Advance` | src/raw_node.rs:667-672 | Applies what had been delivered; dies exactly when the application had reported more than that as applied. |
| `RawNode.RawNode.HandleAppend` | src/raft_log.rs:267-297 | Refuses, dies or stores as the one log does, with commit index and `persisted`, and the stream and everything delivered stay as they were. |
| `RawNode.RawNode.LeaderAppend` | src/raft.rs:1050-1064 | Extends the log and nothing else; the stream stays as it was. |
| `RawNode.RawNode.Restore` | src/raft.rs:2618-2670 | Exactly when a snapshot is taken, only moves the commit index, or is ignored, and what log, commit index, `persisted` and pending snapshot become; the stream stays as it was. |
| `RawNode.RawNode.WriteReady` | src/storage.rs:106-160 | Writing a Ready to storage, snapshot first, leaves the one log as it was. |
| `RawNode.RawNode.AdvanceApplyTo` | src/raft_log.rs:327-343 | Dies exactly outside what is applied already and what is committed; otherwise the applied index moves there. |
| `DeliveryModel.NoRepeats` | src/raw_node.rs:461-481 | In a gapless stream no index is delivered twice. |
| `DeliveryModel.NoGaps` | src/raw_node.rs:461-481 | In a gapless stream every index up to the position was delivered or lies under a snapshot. |
| `DeliveryModel.DeliveredOnce` | src/raw_node.rs:461-563 | Over every sequence of appends, commits, snapshots, handovers and deliveries: each entry is delivered at most once and in order, every index up to the application's position was delivered or lies under a snapshot, and what was delivered is committed and the log's. |
| `DeliveryModel.AlwaysInStep` | src/raw_node.rs:461-563 | Over every such sequence the stream is gapless and the log reaches back to where the application stands. |
| `RawNode.RawNode.HandedOnce` | src/raw_node.rs:461-563 | So for every node at every time, whatever its methods did before. |
| `ConfModel.QuorumsOverlap` | src/confchange/changer.rs:68-158 | For every accepted change from a configuration with voters, every vote won before shares a granting voter with every vote won after. |
| `ConfModel.AlwaysGood` | src/confchange/changer.rs:286-350 | Over all change sequences from empty: learners disjoint from both halves, staged learners outgoing and not incoming, progress for exactly the members. |
| `ConfModel.ChangesGood` | src/confchange/changer.rs:286-350 | The closing check never fails, and leaving always succeeds from a joint configuration. |
| `ConfModel.SimpleExactly` | src/confchange/changer.rs:136-158 | A simple change succeeds if and only if the configuration is not joint, a voter is left and at most one voter changes. |
| `ConfModel.EnterExactly` | src/confchange/changer.rs:68-91 | Entering succeeds if and only if the configuration is not joint, has voters and keeps one; outgoing becomes the old voters. |
| `ConfModel.LeaveExactly` | src/confchange/changer.rs:106-130 | Leaving succeeds if and only if the configuration is joint, and promotes the staged learners. |
| `ConfModel.ApplySound` | src/confchange/changer.rs:163-251 | Each single change keeps the roles apart and the change list in step with the members. |
| `ConfModel.AppliedIsHas` | src/confchange/changer.rs:27-33 | The lookup in the change list foretells what applying it gives. |
| `ConfModel.NeighboursMeet` | src/confchange/changer.rs:145-155 | Majorities of voter sets that differ in at most one voter meet. |
| `ConfRoles.ApplyRoles` | src/confchange/changer.rs:163-251 | A single change gives its id exactly the roles it asks for, staging a learner that is an outgoing voter, and leaves every other id alone. |
| `ConfRoles.ApplyAllRoles` | src/confchange/changer.rs:163-186 | Of a list of changes the last one of an id decides its roles. |
| `ConfRoles.SimpleRoles` | src/confchange/changer.rs:136-158 | So it is for every accepted simple change. |
| `ConfRoles.EnterRoles` | src/confchange/changer.rs:68-91 | So it is for every accepted entry into a joint configuration, with the voters so far as outgoing ones. |
| `ConfRoles.LeaveRoles` | src/confchange/changer.rs:106-130 | Leaving keeps incoming voters and learners and makes learners of those that waited. |
| `ConfRoles.ProgressFollows` | src/confchange/changer.rs:189-268 | After any change exactly the ids with a role have a progress. |
| `Changer.Working.Contains` | src/confchange/changer.rs:27-33 | The search from the end of the change list. |
| `Changer.Working.MakeVoter` | src/confchange/changer.rs:189-198 | Makes the id an incoming voter that is no learner, staged or not, adding its progress if it has none; stated on roles by `ConfRoles.ApplyRoles`. |
| `Changer.Working.MakeLearner` | src/confchange/changer.rs:211-235 | Adds, demotes or stages a learner. |
| `Changer.Working.Remove` | src/confchange/changer.rs:238-251 | Removes a peer, keeping the progress of an outgoing voter. |
| `Changer.Working.Apply` | src/confchange/changer.rs:163-186 | The loop over the changes; fails when no voter is left. |
| `Changer.RunSimple` | src/confchange/changer.rs:136-158 | The in-place form gives what the value form says, errors included. |
| `Changer.RunEnterJoint` | src/confchange/changer.rs:68-91 | The in-place form gives what the value form says, errors included. |
| `Changer.RunLeaveJoint` | src/confchange/changer.rs:106-130 | The in-place form gives what the value form says for some order of the outgoing voters. |
| `Changer.ProgressTracker.ApplyConf` | src/tracker.rs:370-387 | Untouched peers keep their progress, added ones start afresh, removed ones are gone. |
| `Changer.ApplyConfChange` | src/raft.rs:2812-2824 | An accepted change takes effect, a refused one changes nothing, leaving a joint configuration succeeds, and the configuration stays good. |
| `Restore.RestoreTracker` | src/confchange/restore.rs:91-107 | Restoring an empty tracker from the description of any reachable configuration succeeds and gives it back. |
| `Restore.RestoreReached` | src/confchange/restore.rs:91-107 | Whatever changes led to a configuration, restoring its description gives back it and exactly the peers that had a progress. |
| `Restore.ReachedIsRestorable` | src/confchange/restore.rs:91-107 | Every configuration that some sequence of changes reaches can be restored. |
| `Restore.ToConfChangeSingle` | src/confchange/restore.rs:14-85 | The loops list the outgoing voters, then the removals, voters, learners and staged learners. |
| `Restore.JointRebuilt` | src/confchange/restore.rs:98-105 | On top of the outgoing voters the listed changes give back the joint configuration. |
| `Restore.RestoreIsNotFatal` | src/raft.rs:377-386 | The closing comparison of the two descriptions holds for every order of their lists. |
| `Restore.EqMeansSame` | proto/src/confstate.rs:21-40 | Two descriptions are equal exactly when they describe the same configuration. |
| `Quorum.CountVotes` | src/quorum/majority.rs:189-213 | The counters decide a half: won by a majority of grants, lost when refusals leave none. |
| `Quorum.JointVoteMeaning` | src/quorum/joint.rs:56-67 | A joint vote is won exactly by a quorum of grants and lost exactly when refusals leave no quorum. |
| `Quorum.VoteIsFinal` | src/tracker.rs:297-299 | Since ballots are never overwritten, a decided vote stays decided. |
| `Quorum.PendingIsOpen` | src/quorum/joint.rs:56-67 | A pending vote can still end either way. |
| `Quorum.QuorumsMeet` | src/quorum/joint.rs:56-67 | Any two quorums of a configuration with voters share a voter. |
| `CommittedIndex.Compute` | src/quorum/majority.rs:79-133 | Collecting, sorting in place and scanning groups gives the order-free committed index of a half. |
| `CommittedIndex.MajorityIndexLargest` | src/quorum/majority.rs:103-110 | No larger index is acknowledged by a majority. |
| `CommittedIndex.MajorityIndexAcked` | src/quorum/majority.rs:103-110 | The majority index is acknowledged by a majority. |
| `CommittedIndex.GroupIndexAcked` | src/quorum/majority.rs:111-132 | The group index is acknowledged by a majority and by two distinct groups. |
| `CommittedIndex.GroupIndexLargest` | src/quorum/majority.rs:111-132 | No larger index is acknowledged by a majority and two distinct groups. |
| `CommittedIndex.LeastIndexLargest` | src/quorum/majority.rs:128-132 | The fallback is the least acknowledged index. |
| `CommittedIndex.JointIndexAcked` | src/quorum/joint.rs:47-51 | The joint index is acknowledged by a joint quorum, in every mode. |
| `CommittedIndex.SortDescending` | src/quorum/majority.rs:103-104 | Sorts in place and still lists every voter's acknowledgement once. |
| `CommittedIndex.ScanGroups` | src/quorum/majority.rs:111-132 | The group scan over the sorted list gives the order-free result. |
| `Ring.Inflights.Add` | src/tracker/inflights.rs:92-115 | Appends to the queue; the place is always within the buffer. |
| `Ring.Inflights.FreeTo` | src/tracker/inflights.rs:118-152 | Drops the longest prefix up to the index and adopts a waiting capacity once drained. |
| `Ring.Inflights.FreeFirstOne` | src/tracker/inflights.rs:156-161 | Frees up to the first item. |
| `Ring.Inflights.SetCap` | src/tracker/inflights.rs:51-80 | Resizing keeps the contents, also when the ring wraps. |
| `Ring.Inflights.Reset` | src/tracker/inflights.rs:165-170 | Empties the queue. |
| `Ring.Inflights.MaybeFreeBuffer` | src/tracker/inflights.rs:195-201 | Releasing memory does not change the queue. |
| `Ring.Inflights.Full` | src/tracker/inflights.rs:87-89 | Full at the capacity or at the smaller one that waits. |
| `Ring.WindowIsQueue` | src/tracker/inflights.rs:51-201 | Over any operations the contents are the latest part of what was added, within the capacity. |
| `Ring.FreesLongestPrefix` | src/tracker/inflights.rs:124-143 | Freeing drops exactly the longest prefix of items up to the index. |
| `Ring.FreesExactly` | src/tracker/inflights.rs:118-152 | With items added in order, freeing removes exactly those up to the index. |
| `WindowModel.CapacityCounts` | src/tracker/inflights.rs:51-89 | A new capacity counts at once: the window is full exactly from that many items on. |
| `WindowModel.FreeingAdopts` | src/tracker/inflights.rs:118-152 | A waiting capacity is adopted exactly when freeing empties the window. |
| `PeerProgress.Progress.MaybeUpdate` | src/tracker/progress.rs:136-148 | Takes over news and never lowers the next index. |
| `PeerProgress.Progress.MaybeDecrTo` | src/tracker/progress.rs:166-204 | Ignores stale rejections and lowers the next index, not below the matched one. |
| `PeerProgress.Progress.BecomeProbe` | src/tracker/progress.rs:94-106 | Probes after the matched index or the snapshot. |
| `PeerProgress.Progress.BecomeReplicate` | src/tracker/progress.rs:110-113 | Replicates after the matched index. |
| `PeerProgress.Progress.BecomeSnapshot` | src/tracker/progress.rs:117-120 | Waits for the snapshot. |
| `PeerProgress.Progress.UpdateState` | src/tracker/progress.rs:229-241 | Moves on optimistically, or pauses a probe. |
| `PeerProgress.Progress.IsPaused` | src/tracker/progress.rs:208-214 | A probe that was sent, a full window, or a snapshot pauses a peer. |
| `ProgressModel.PausedExactly` | src/tracker/progress.rs:208-214 | Sending is held back exactly by an unanswered probe, a full window or a snapshot under way. |
| `ProgressModel.ProbedAfter` | src/tracker/progress.rs:94-106 | A peer is probed right after its match or, coming from a snapshot, after the larger of both. |
| `ProgressModel.SnapshotAwaited` | src/tracker/progress.rs:117-132 | A snapshot pauses the peer until it is known to hold as much. |
| `ProgressModel.SnapshotRequested` | src/tracker/progress.rs:166-204 | A rejection that asks for a snapshot leaves the indexes alone; it is noted unless it is old or, for a peer that does not replicate, one is noted already. |
| `PeerWindow.AlwaysOrdered` | src/tracker/progress.rs:75-241 | Throughout a leadership, resized windows included, the next index is past the matched one, which never goes back between any two moments, and the window holds increasing indexes strictly between them. |
| `Backtrack.ProbingEnds` | src/raft.rs:1656-1758 | Probing ends at exactly the largest agreed index, after at most as many rounds as the leader has terms where the logs differ, without changing a log. |
| `Backtrack.RefusedRound` | src/raft.rs:2546-2561 | A refused round lowers the probe strictly, not below the largest agreed index, and skips the refused term. |
| `Backtrack.AcceptedRound` | src/raft.rs:2524-2534 | At the largest agreed index the follower stores what it is sent and then agrees with the leader. |
| `Backtrack.HintSkipsTerm` | src/raft_log.rs:227-253 | Hint and answer together skip every entry of the refused term. |
| `Backtrack.AcceptedIffAgreed` | src/raft_log.rs:256-258 | An anchor is accepted exactly up to the largest agreed index. |
| `Backtrack.LastUpToMeaning` | src/raft_log.rs:227-253 | The index found is the largest whose term is not above the given one. |
| `Backtrack.FindConflictByTerm` | src/raft_log.rs:227-253 | The loop finds that index, and no term for an index past the end. |
| `Sending.SendAggressively` | src/raft.rs:790-794 | The loop ends; its messages are consecutive anchored segments from the old next index; the window fills but never overflows. |
| `Sending.MaybeSendAppend` | src/raft.rs:801-859 | Sends the next page unless paused or, when not allowed to be empty, unless nothing is left. |
| `Sending.CarriesSegment` | src/raft.rs:736-752 | Put together, the messages carry exactly the entries between the old and the new next index. |
| `Sending.SendsAsModelled` | src/raft.rs:801-859 | Each send is one of the sends of the cluster model. |
| `Uncommitted.SizeIsConserved` | src/raft.rs:107-157 | Throughout a leadership with a limit, the size is the bytes of the entries above both the inherited tail and what was delivered. |
| `Uncommitted.ActsConserved` | src/raft.rs:135-156 | Each step keeps it, and the underflow branch is never taken. |
| `Uncommitted.LimitIsKept` | src/raft.rs:113-133 | Throughout a leadership the size is within the limit, or at most what one proposal costs that was let in while nothing was outstanding. |
| `Uncommitted.DroppedExactly` | src/raft.rs:113-133 | A proposal is dropped if and only if there is a limit, it costs something, something that costs is outstanding, and together they are over the limit; so a first one is let in however large. |
| `Uncommitted.UncommittedState.MaybeIncrease` | src/raft.rs:113-133 | Lets in empty, first and fitting proposals. |
| `Uncommitted.UncommittedState.MaybeReduce` | src/raft.rs:135-156 | Gives back the delivered bytes above the inherited tail. |
| `PendingConf.AtMostOnePending` | src/raft.rs:2091-2139 | At every point of a leadership at most one own configuration change is unapplied, and none exists before the inherited tail is applied. |
| `PendingConf.Screen` | src/raft.rs:2091-2139 | The loop turns every change that is not admitted into an empty entry. |
| `PendingConf.ScreensOne` | src/raft.rs:2091-2139 | Of a batch at most one entry stays a change, and only if none was pending. |
| `PendingConf.ApplyKeeps` | src/raft.rs:980-1012 | The automatic exit from a joint configuration keeps the bound. |
| `PendingConf.LeavesWhenApplied` | src/raft.rs:980-1012 | The exit from an auto-leave configuration is appended exactly when the pending index lies between the old and the new applied index, both included, and is then the pending change. |
| `PendingConf.DroppedBatchBlocks` | src/raft.rs:2091-2147 | The pending index moves although nothing is appended if and only if some change before the first unreadable entry is admitted and the batch is dropped, for its size or for an unreadable entry. |
| `PendingConf.ScreenMoves` | src/raft.rs:2091-2139 | The pending index moves exactly when the batch has an admitted change with everything before it readable, then to the first one, which is the entry that stays a change. |
| `PendingConf.DroppedBatches` | src/raft.rs:2091-2147 | Both ways to drop such a batch, each leaving the log as it was and refusing the next change. |
| `PendingConf.AdmittedAgain` | src/raft.rs:2110-2122 | A change is admitted again exactly when everything up to the pending index is applied and its direction fits. |
| `ReadQueue.ReadOnly.AddRequest` | src/read_only.rs:85-98 | Queues a request once. |
| `ReadQueue.ReadOnly.RecvAck` | src/read_only.rs:103-108 | Records an acknowledgement of a known request. |
| `ReadQueue.ReadOnly.Advance` | src/read_only.rs:113-128 | Releases everything up to the request, in order; its lookups cannot fail. |
| `ReadOnlyModel.ReadOnly.AdvanceValid` | src/read_only.rs:113-128 | Queue and map still agree after a release. |

## Left out

- Snapshot transfer, request_snapshot and changing membership inside a cluster run: voters are fixed (a joint
  configuration is allowed), and snapshots appear only in the single-node log and pipeline. Quorum overlap is proved for
  configurations instead.
- LeaseBased reads, check_quorum leases and all tick counting: a timeout is a campaign that may happen at any time, and a
  vote request dropped for a lease is a lost message.
- Leadership transfer messages, except that a transfer campaign skips the pre-vote.
- batch_append: appends are never merged (it is off by default).
- In a cluster run the sends that handlers trigger are separate steps that may happen at any time, and a node's term,
  vote, log and commit index survive a crash after each step; the notice that a part of the log is persisted may come
  later and in pieces.
- In a cluster run the scans for unapplied configuration changes before a campaign and after a commit by vote: there are
  no configuration changes in a run.
- In a cluster run only voters campaign, as the tick and the transfer path check (src/raft.rs:1112, src/raft.rs:2406);
  `RawNode::campaign` has no such check.
- Entry payloads are numbers in the cluster model, and their sizes are parameters elsewhere.
- Ring.Inflights.Add: the panic on a full window is a precondition; `Sending.SendAggressively` shows that it holds.
- RaftObject.Raft.Step: on a leader, indexes are 64-bit numbers and the read queue agrees with its map; the latter is
  part of what every run keeps (`Cluster.LeaderOk`). A vote request that is dropped for a leader lease is a message that
  is not delivered.
- RaftObject.Raft.HandleAppendResp: the appends it sends are not part of it; in a run they are steps of their own, and
  `Sending.SendAggressively` is the loop that makes them. Finishing a leadership transfer is left out.
- RaftObject.Raft.HandleHeartbeatResp: the append it may send is a step of its own.
- RaftObject.Raft.StepFollower: forwarding proposals, snapshots and timeout-now are left out.
- RaftObject.Raft.StepLeader: proposals, unreachable peers and stepping down are methods and events of their own; snapshot
  status, leadership transfer and counting active peers are left out.
- RaftObject.Raft.Hup: does not refuse because of unapplied configuration changes; a refusal is a campaign that does not
  happen.
- RaftObject.Raft.CommitByVote: does not step down for a configuration change it commits; there are none in a run.
- RaftObject.Raft.HandleReadIndex: the heartbeats it broadcasts are steps of their own; lease-based reads are left out.
- RaftObject.Raft.OnPersistEntries: the log has one layer here, so the test against what is still unstable is that of
  `TwoLayerLog.RaftLog.MaybePersist`; the appends that follow a commit are steps of their own.
- RaftObject.Raft.Propose: screening configuration changes is in `PendingConf.Screen`, the size limit in
  `Uncommitted.UncommittedState.MaybeIncrease`; a batch refused by either is a proposal that does not happen.
- RaftObject.Raft.RequestVotes: messages form a set, so sending one twice would not show.
- Sending.MaybeSendAppend: the fallback to a snapshot when entries are compacted is left out.
- MemStorage compaction, locks, and entries that storage fetches asynchronously.
- tally_votes counters and quorum_recently_active.
- Soft state except the role, must_sync and the messages of a Ready. Writing a Ready to storage before advancing is the
  application's duty.
- RawNode.RawNode.GenLightReady: asks for what ready has just asserted, since it is called only after that or when no
  snapshot is pending.
- RawNode.RawNode.OnPersistReady: indexes are 64-bit numbers and a leader's term is positive.
- RawNode.RawNode.HandleAck: only the matched index and the commit; the rest of the response is in
  `RaftObject.Raft.HandleAppendResp`.
- RawNode.RawNode.constructor: the applied index at a start is at most the commit index; with an apply-ahead limit it
  may be larger after a restart.
- Config validation, status, logging and message codecs.
