# A verified model of the distributed editor

A collaborative text editor on a cluster: a hand-written Raft replicates a log of edits
(`internal/raft`), every replica turns the log into a document with the EasySync operational
transformation engine (`internal/ot`, `internal/fsm`), and browser clients keep three layers of
edits, A, X and Y, in step with it (`web/client.js`). This project models all three and proves them
correct, alone and together.

`dafny verify dfyconfig.toml` checks the whole project (Dafny 4.11).

## How it is built

| files | what they hold |
|---|---|
| `Raft.dfy` | one server: state, messages, and the transition of each handler, as functions |
| `LogStore.dfy`, `RaftNode.dfy` | the imperative server over the map-based log store; each handler is proved to make exactly the transition of `Raft.dfy` |
| `Cluster.dfy` | runs of a cluster: any delay, reordering, duplication and loss of messages, crash and restart at any moment |
| `RaftInvariant.dfy`, `RaftFrame.dfy`, `RaftSteps.dfy`, `RaftReceive.dfy`, `RaftAnswer.dfy` | the inductive invariant and its preservation, step by step |
| `RaftLate.dfy`, `RaftPast.dfy` | answers to a leadership that has ended, and what is known of former leaders |
| `RaftSafety.dfy` | the safety theorems over every run |
| `RaftProgress.dfy` | what each message achieves: requests catch followers up, rejections back up to the right place, answers count, votes are given where due, later terms are heard |
| `Durability.dfy` | a crash at any write of any handler is a crash the runs account for |
| `StaleAnswer.dfy` | exactly which clusters are safe with the source's handling of such answers, with a diverging run for all others |
| `Interrupted.dfy` | a run that shows why winning and becoming leader must not be interrupted |
| `ApplyLoop.dfy` | the apply goroutine beside the handlers, with its one-token channel |
| `Changeset.dfy`, `Cursor.dfy`, `Follow.dfy`, `FollowMarks.dfy`, `FollowOrder.dfy`, `Compose.dfy`, `ComposeOrder.dfy`, `Diff.dfy` | the transformation engine: the walks as functions with their laws, and the two-cursor and table loops proved equal to them |
| `Document.dfy` | the replicated document |
| `Client.dfy`, `Collaboration.dfy` | the A/X/Y client, and sessions of any number of clients with the server |
| `EndToEnd.dfy` | the document of a replica, and the agreement of replicas |
| `Joint.dfy`, `JointSafety.dfy` | cluster, replicas and clients in one run, with clients on different, lagging or restarted replicas |

The invariant of the cluster records what has happened in a history no server reads: who won which
term with which log and votes, what every leader's log was, who acknowledged what, and what was
committed. A log is described against the leaders' logs, and an acknowledged prefix is either still
held or was already lost by the leader of a later term; a quorum of acknowledgements rules the second
case out.

The main results: election safety, log matching, leader completeness and state machine safety in
every run of a safe cluster, and exactly which clusters are safe with the source's code; fast back-up and commit counting; an apply loop that loses no commit; convergence of
`Follow` exactly when the inserts at each place agree; meaning-preserving `Compose`; an optimal diff;
exactly-once application; whole-session convergence of clients; and, in one run of cluster, replicas and
clients, agreement of all replicas and all quiet screens on one document.

## Assumptions

The Go code does not enforce the first three.

- Counting the last vote, becoming leader and setting up the peers is one step, as is the time-out
  with the election it starts. The no-op may follow later, but only while the server still leads
  (`internal/raft/raft.go:323-336`, `internal/raft/raft.go:376-412` release the lock in between; all
  that can come between is an answer of a higher term to an earlier leadership).
  `Interrupted.InterruptedWin` is a run that shows why.
- Of the theorems about runs (`IsRun`): the cluster has at most four servers, or its leaders store their
  no-op before their first request, or the handler of an answer looks again whether it still leads
  (`SafeCluster`). The source does neither of the last two (`internal/raft/raft.go:402-412`,
  `internal/raft/replication.go:99-129`); its own `config.json` has three servers. This is not a
  choice of convenience: `StaleAnswers.SafetyExactly` proves that state machine safety holds of all runs
  in exactly these clusters, and `StaleAnswers.LateAnswersDiverge` gives the diverging run for every
  cluster of five or more.
- Server IDs are distinct, not empty, and include the server's own; a vote counts once per peer.
- Storage calls do not fail, and a write that returned survives a crash.
- Client and server share one alphabet and one lexicographic order; lengths count characters.
- Results reach a client once and in commit order (`internal/fsm/fsm.go:131` starts one goroutine per
  commit), a submission is proposed at most once, and only validated changesets with a base revision
  that is not negative are proposed (`internal/server/websocket.go:341`; a negative one would index the
  history out of range).
- Terms, indices and revisions are unbounded integers.

Where documentation and code differ, the code is modelled: the repository's README mentions
`hashicorp/raft`, while the Raft is the hand-written one; and the EasySync manual promises
convergence of `Follow` for all changesets, while the code needs inserts without neighbours of their
kind (`Following.ConvergesExactly` gives the exact condition, `Following.ValidIsNotEnough` an input
that `Validate` accepts and that diverges).

## Model

| member | source | states |
|---|---|---|
| EndToEnd.ReplicasAgree | internal/fsm/fsm.go:50-136 | in every run, replicas that applied equally many entries, at any moments and across crashes, hold the same document; one that applied fewer holds an earlier revision of it |
| JointSafety.ClientsFollowTheirReplica | internal/server/websocket.go:389-412 | in every run of cluster, replicas and clients, a client connected to any replica, lagging or restarted, has the replica's text at its revision as base text and the rest of the replica's history in its queue, can take in its next message, and, when quiet, shows the replica's text |
| JointSafety.QuietClientsAgree | internal/server/websocket.go:389-412 | quiet clients of different replicas that have applied equally many entries show the same text |
| JointSafety.EverySubmissionIsAppliedOnce | internal/fsm/fsm.go:50-136 | on every replica at every moment each submission in the applied log is applied, none is rejected, and none is there twice |
| JointSafety.RunMatches | internal/server/websocket.go:328-382 | every joint run is followed by a session whose server commits what the cluster commits |
| JointSafety.CommandsDistinct | internal/raft/raft.go:440-475 | a log whose entries lie where they were appended holds each submission once |
| JointSafety.AppliedEntry | internal/fsm/fsm.go:50-136 | when a replica applies an entry of the committed log, what it sends its clients is exactly what its history has gained |
| EndToEnd.AppliedPrefix | internal/raft/raft.go:552-582 | of any two servers' applied logs, at any two moments of a run, one is a prefix of the other |
| EndToEnd.AppliedOnce | internal/fsm/fsm.go:61-78 | a submission that reaches the log twice, for instance through two leaders, changes a replica's document at most once |
| RaftSafety.StateMachineSafety | internal/raft/replication.go:188-313 | no two servers ever apply different entries at the same index, whatever the moments of the run |
| RaftSafety.AppliedIsCommitted | internal/raft/raft.go:552-582 | at every moment of a run what a server has applied is a prefix of what it committed, which is a prefix of the run's one committed log |
| RaftSafety.CommittedNeverCut | internal/raft/replication.go:260-296 | no step, conflict truncation and a crash in the middle of it included, removes or changes an entry its server has committed |
| RaftSafety.CommittedInLaterLeaders | internal/raft/replication.go:320-362 | what a leader committed at any time is in the log of every leader of a later term at any time (sections 5.4.1 and 5.4.2 of the Raft paper) |
| RaftSafety.ElectionSafety | internal/raft/election.go:80-136 | at most one leader per term over a whole run, although a same-term AppendEntries clears a candidate's vote and a crash may fall between the two writes of `persistState` |
| RaftSafety.LogMatching | internal/raft/replication.go:228-296 | logs that share an index and term, at any two moments of a run, are identical up to it, and terms never decrease along a log |
| RaftSafety.LeaderAppendOnly | internal/raft/raft.go:440-498 | a leader's log only grows while it leads, over any stretch of the run |
| RaftSafety.FollowerCommitRule | internal/raft/replication.go:298-309 | the smaller of leader commit and last index equals the paper's rule with the last new entry, because every request reaches at least the leader's commit index |
| RaftSafety.BackUpProgress | internal/raft/replication.go:131-172 | after a rejection in its own term the leader continues strictly below the rejected position and at least at 1; the term search never lands at or above it |
| RaftSafety.RejectionsAreBounded | internal/raft/replication.go:131-172 | while a peer only rejects, the number of its rejections plus the current `nextIndex` is at most the initial `nextIndex` |
| RaftSafety.NextIndexStep | internal/raft/replication.go:131-172 | only an answer of the peer moves its `nextIndex` during a leadership, and a rejection lowers it |
| RaftProgress.AcceptedCatchesUp | internal/raft/replication.go:43-90 | in every run, a server that accepts a request sent by a current record holds all of the log its sender then had and has committed at least what its sender then had |
| RaftProgress.CarriesTheSuffix | internal/raft/replication.go:55-78 | a request built from a usable record ends with the last entry of its sender's log |
| RaftProgress.ConflictReported | internal/raft/replication.go:228-257 | a rejection names the end of a short log, or the conflicting term and where its run of entries begins |
| RaftProgress.BackUpValue | internal/raft/replication.go:131-172 | the leader continues behind its last entry of the conflicting term, if one is named and it has one; otherwise at the conflict index, at least at 1 |
| RaftProgress.BackUpKeepsShared | internal/raft/replication.go:131-172 | fast back-up never goes back over what leader and follower share |
| RaftProgress.BackUpKeepsSharedInRun | internal/raft/replication.go:131-172 | the same in every run, whenever the answer is taken |
| RaftProgress.OneRejection | internal/raft/replication.go:168-171 | a follower whose log is merely behind needs one rejection: the next request fits |
| RaftProgress.AnswerTells | internal/raft/replication.go:188-313 | an answer is a success exactly if the request was accepted |
| RaftProgress.AcceptedCounts | internal/raft/replication.go:112-124 | an accepted suffix makes its receiver a holder of everything up to its end, and touches no other record |
| RaftProgress.VoteIsDue | internal/raft/election.go:80-151 | a vote is given exactly to a candidate of a term not passed, if nobody else has it, whose log ends in no earlier term and, in the same, is no shorter |
| RaftProgress.LaterTermsAreHeard | internal/raft/raft.go:640-652 | whatever message brings a later term, its receiver enters it and leads no more, and every answer carries the term reached |
| RaftSafety.CommitCountingIsExact | internal/raft/replication.go:320-352 | testing the one majority index commits every index the paper's "exists N" rule would, and nothing that rule would not |
| StaleAnswers.SafetyExactly | internal/raft/replication.go:99-129 | state machine safety holds of every run if and only if there are at most four servers, or the no-op comes before the first request, or the handler checks that it leads |
| StaleAnswers.LateAnswersDiverge | internal/raft/raft.go:398-412 | with the source's order and handler, every cluster of five or more has a run, each term beginning with its no-op, in which two servers apply different entries at one index and hand different commands to their state machines |
| StaleAnswers.StaleAnswer | internal/raft/replication.go:99-129 | in every such cluster there is a run that ends with a follower receiving an answer to its former leadership, on which the handler commits entries fewer than a quorum hold |
| RaftLate.LateAnswerKeeps | internal/raft/replication.go:99-172 | in a safe cluster any answer to a leadership that has ended, or by a replaced record, keeps the invariant, whatever it commits |
| RaftLate.NoOpFirstBlocks | internal/raft/raft.go:398-412 | if the no-op comes before the first request, what a former leader counts never moves its commit index |
| RaftLate.FollowerCommitOk | internal/raft/replication.go:320-352 | among at most four servers, what a follower commits by a late answer is held by it and its leader, and no quorum avoids both |
| RaftLate.CountedByFormerLeader | internal/raft/replication.go:320-340 | what a former leader counts as held by a majority was committed by its own term, if its requests end in entries of that term |
| RaftPast.NextKeepsPast | internal/raft/raft.go:376-396 | in every step, peers belong to a leadership of the server's own, their match indices are acknowledged, and so are every server's entries of its current term |
| RaftPast.NextKeepsNoOps | internal/raft/raft.go:402-412 | with the no-op first, every request and every match index ends in an entry of its own term |
| Interrupted.InterruptedWin | internal/raft/raft.go:316-346 | in every cluster of three or more there is a run in which an answer to an earlier leadership reaches a candidate between its last vote and its becoming leader, and takes it to a term another server leads |
| Durability.CrashAtAnyWrite | internal/raft/raft.go:601-608 | a crash at any write of a handler continues the run with the server restarted from what is on disk |
| Durability.CrashAtAnyWriteOfRequest | internal/raft/replication.go:276-293 | the same for a request, between deleting the conflicting entries and storing the new ones included |
| Durability.NoRivalRequest | internal/raft/replication.go:202-211 | in no run does a leader hear another leader of its own term |
| RaftSafety.NextKeepsInv | internal/raft/raft.go:214-232 | every step of a safe cluster keeps the invariant |
| RaftSafety.RunInv | internal/raft/raft.go:214-232 | the invariant holds in every state of every run |
| RaftSafety.RunRemembers | internal/raft/raft.go:601-629 | recorded elections, leaders' logs and commits are never revised later in a run |
| RaftInvariant.LeaderCompleteness | internal/raft/election.go:112-151 | a prefix acknowledged by a quorum and ending in an entry of its own term is in the log of every leader elected later |
| RaftInvariant.CommitsAgree | internal/raft/replication.go:320-362 | of any two committed prefixes one is a prefix of the other |
| RaftInvariant.QuorumsMeet | internal/raft/raft.go:279-302 | a majority shares a server with every set too large for a majority to avoid, another majority in particular |
| RaftInvariant.TermsAscend | internal/raft/raft.go:440-498 | terms never decrease along a log that is in order |
| RaftInvariant.InitInv | internal/raft/raft.go:59-107 | a freshly started cluster satisfies the invariant |
| RaftSteps.FirstWinner | internal/raft/raft.go:279-346 | a candidate with a majority of votes is the first winner of its term |
| RaftSteps.TwoVotes | internal/raft/replication.go:202-214 | nobody votes both for the winner of a term and for another candidate still standing in it, although votes can be cleared |
| RaftSteps.VoteCarriesAcks | internal/raft/election.go:104-127 | what a voter acknowledged is in the log of the candidate it votes for, or some earlier leader had lost it |
| RaftSteps.UpToDateKeeps | internal/raft/election.go:143-151 | a log at least as up to date as one that holds a prefix holds it too, or ends in the term of a leader who lost it |
| RaftSteps.TimeoutKeeps | internal/raft/election.go:13-41 | starting an election keeps the invariant |
| RaftSteps.VoteKeeps | internal/raft/election.go:80-136 | answering a vote request keeps the invariant, granted or not |
| RaftSteps.CountKeeps | internal/raft/raft.go:307-327 | counting an answer, or stepping down on a higher term, keeps the invariant |
| RaftSteps.WinKeeps | internal/raft/raft.go:329-396 | becoming leader keeps the invariant |
| RaftSteps.AppendKeeps | internal/raft/raft.go:440-498 | appending a command or a no-op keeps the invariant |
| RaftSteps.SendKeeps | internal/raft/replication.go:23-90 | sending the suffix of the log keeps the invariant, also by the record of an earlier leadership, whose goroutine may send once more |
| RaftReceive.AcceptedIsLive | internal/raft/replication.go:226-258 | nobody accepts a request that points past its sender's log |
| RaftSteps.ApplyKeeps | internal/raft/raft.go:552-582 | applying a committed entry keeps the invariant |
| RaftSteps.CrashKeeps | internal/raft/raft.go:601-652 | a crash at any point of `persistState`, and the restart from what is on disk, keep the invariant |
| RaftReceive.MergeShape | internal/raft/replication.go:260-296 | merging a slice of the leader's log yields the old log or the leader's prefix, agrees with the leader to the end of the slice, and keeps everything the logs shared |
| RaftReceive.ReceivedLog | internal/raft/replication.go:226-296 | the log after an accepted request agrees with the leader's up to the last entry sent |
| RaftReceive.ReceiveKeepsAck | internal/raft/replication.go:260-296 | an earlier acknowledgement survives the merge, or the requesting leader had already lost it |
| RaftReceive.CommittedInLeader | internal/raft/replication.go:188-313 | all a server has committed is in the log of every leader it may hear from |
| RaftReceive.ReceiveKeeps | internal/raft/replication.go:188-313 | handling any AppendEntries request keeps the invariant |
| RaftReceive.CrashCutKeeps | internal/raft/replication.go:276-293 | a crash between deleting the conflicting entries and storing the new ones keeps the invariant |
| RaftAnswer.CountedQuorum | internal/raft/replication.go:320-349 | the servers counted for a current-term index form a quorum that holds it |
| RaftAnswer.RecordedPeersOk | internal/raft/replication.go:112-172 | after an answer every match index is backed by an acknowledgement and every `nextIndex` lies between 1 and one past the log |
| RaftAnswer.AnswerKeeps | internal/raft/replication.go:99-172 | handling an answer, with the commit it may cause, keeps the invariant |
| Raft.FirstOfTerm | internal/raft/replication.go:244-252 | the first index of the run of entries with the conflicting term |
| Raft.LastOfTerm | internal/raft/replication.go:134-147 | the leader's last entry of a term, 0 if it has none |
| RaftNodes.RaftNode.constructor | internal/raft/raft.go:59-107 | a started server has the term, vote and log of its stores and nothing volatile |
| RaftNodes.RaftNode.LastLogInfo | internal/raft/raft.go:657-667 | index and term of the last entry, zeros for an empty log |
| RaftNodes.RaftNode.PersistState | internal/raft/raft.go:601-608 | term and vote on disk become those in memory, in two writes, the term first |
| RaftNodes.RaftNode.StepDownTo | internal/raft/raft.go:640-652 | exactly the step-down transition, persisted |
| RaftNodes.RaftNode.Campaign | internal/raft/election.go:13-41 | exactly the election transition; the request carries the new term and the end of the log |
| RaftNodes.RaftNode.HandleRequestVote | internal/raft/election.go:80-136 | exactly the voting transition and its answer, in all five branches; every disk state on the way is one a crash step restarts from |
| RaftNodes.RaftNode.HandleVote | internal/raft/raft.go:316-327 | exactly the counting transition |
| RaftNodes.RaftNode.Lead | internal/raft/raft.go:335-396 | exactly the transition to leader, with every peer set up from the log's end |
| RaftNodes.RaftNode.Propose | internal/raft/raft.go:440-498 | one entry of the current term is stored behind the last one |
| RaftNodes.RaftNode.BuildRequest | internal/raft/replication.go:43-90 | exactly the request of the model, whose every field `RaftProgress.AcceptedCatchesUp` needs: the loop collects the whole suffix from `nextIndex` on, with the entry before it and the commit index |
| RaftNodes.RaftNode.FindLastOfTerm | internal/raft/replication.go:134-147 | the backward search finds the last entry of a term |
| RaftNodes.RaftNode.HandleAppendResponse | internal/raft/replication.go:99-172 | exactly the answer transition, with the true majority index for the commit decision, whether or not the peer's record is still in use |
| RaftNodes.RaftNode.FindBackUp | internal/raft/replication.go:131-165 | exactly the index that `RaftProgress.BackUpValue` describes and `RaftProgress.BackUpKeepsShared` shows not to be too low |
| RaftNodes.RaftNode.AdvanceCommitIndex | internal/raft/replication.go:320-362 | the index tested is the largest one held by a majority, and the commit index moves exactly when its entry is of the current term |
| RaftNodes.RaftNode.FindFirstOfTerm | internal/raft/replication.go:244-252 | the backward scan finds the first entry of the conflicting term |
| RaftNodes.RaftNode.CheckLog | internal/raft/replication.go:226-258 | the consistency check succeeds exactly on consistent logs and otherwise reports the conflict term and index |
| RaftNodes.RaftNode.MergeEntries | internal/raft/replication.go:260-296 | the loop over the store makes the log the merge of the old log and the entries |
| RaftNodes.RaftNode.HandleAppendEntries | internal/raft/replication.go:188-313 | exactly the AppendEntries transition and its answer, in all branches; every disk state on the way is one a crash step restarts from |
| RaftNodes.RaftNode.ApplyCommitted | internal/raft/raft.go:552-582 | afterwards everything up to the commit index is applied, in order |
| RaftNodes.ApplyUpToMeaning | internal/raft/raft.go:552-582 | applying one by one up to k makes the applied entries the first k of the log, none skipped and none repeated |
| RaftNodes.MajorityElement | internal/raft/replication.go:330-335 | in a descending sequence the value at position m is the largest that m + 1 values reach |
| RaftNodes.SortedGivesMajority | internal/raft/replication.go:320-335 | the sorted element at position majority - 1 is the largest index held by a majority |
| RaftNodes.SortDescending | internal/raft/replication.go:332-332 | the result is a descending permutation |
| RaftNodes.CollectMatches | internal/raft/replication.go:322-328 | the collected values count, for every k, exactly the peers whose match index reaches k |
| LogStores.InmemLogStore.constructor | internal/raft/inmem.go:20-24 | an empty store |
| LogStores.InmemLogStore.LastIndex | internal/raft/inmem.go:32-36 | the cached index is the largest key, 0 if there is none |
| LogStores.InmemLogStore.GetLog | internal/raft/inmem.go:38-49 | found exactly if stored, and then that entry |
| LogStores.InmemLogStore.StoreLogs | internal/raft/inmem.go:55-72 | the map is updated entry by entry and the cached bounds stay those of the map |
| LogStores.InmemLogStore.DeleteRange | internal/raft/inmem.go:74-91 | exactly the range is removed and the bounds are found again |
| LogStores.StoreAppends | internal/raft/inmem.go:55-72 | storing behind the last entry appends to the log the map represents |
| LogStores.DeleteCuts | internal/raft/inmem.go:74-91 | deleting to the last entry cuts the log the map represents |
| LogStores.BoundsOfLog | internal/raft/inmem.go:32-36 | the cached high index of a represented log is its length |
| ApplyLoops.NoCommitIsLost | internal/raft/raft.go:540-592 | whenever the loop is parked with no token pending and none owed, `lastApplied` equals `commitIndex` and everything committed at any earlier moment has been handed over, coalesced notifications included |
| ApplyLoops.AppliedInOrder | internal/raft/raft.go:552-582 | at every moment the state machine has been handed exactly a prefix of the committed entries, although the log is read without the lock |
| ApplyLoops.NoCommitIsLostInRun | internal/raft/raft.go:540-592 | the same for a server of a run between two crashes: parked with no token pending, it has handed over all it committed at any earlier state since it started |
| ApplyLoops.AppliedInOrderInRun | internal/raft/raft.go:552-582 | at every moment of such a stretch of a run the state machine has a prefix of the committed entries |
| ApplyLoops.HasLife | internal/raft/raft.go:540-592 | every stretch of a run in which a server is up is a life of its loop, channel and goroutine included |
| ApplyLoops.CatchesUp | internal/raft/raft.go:540-592 | once the handlers are quiet the loop takes a bounded number of steps, and where it stops everything committed has been handed over |
| ApplyLoops.NeverStuck | internal/raft/raft.go:540-592 | while there is work, the notifier or the loop can take a step |
| ApplyLoops.MoveKeeps | internal/raft/replication.go:305-308 | an unread commit index always leaves a notification owed or pending, or a loop that will read it |
| ApplyLoops.ClusterStepIsHandled | internal/raft/replication.go:352-361 | between crashes every step of the cluster is, to a server's loop, a handler that leaves committed entries alone, or the loop's own recording |
| Changesets.Validate | internal/ot/changeset.go:114-146 | succeeds exactly on valid changesets |
| Changesets.ApplyChangeset | internal/ot/apply.go:10-65 | the outcome of the pass for any changeset, errors and panics on negative lengths included; without negative lengths it succeeds exactly if the lengths fit and the operations are known, and then gives their meaning |
| Changesets.ScanMeaning | internal/ot/apply.go:22-64 | the pass from any position never panics on operations without negative lengths, and writes what they mean |
| Changesets.ApplyConcat | internal/ot/apply.go:24-54 | a list of operations works on the front of the text, the rest of the list on the rest |
| Changesets.ApplyLength | internal/ot/apply.go:24-64 | a valid changeset produces a text of its new length |
| Changesets.AddAllMeaning | internal/ot/follow.go:49-78 | merging neighbours of one kind does not change what the operations mean |
| Changesets.AddAllOk | internal/ot/follow.go:49-78 | merging keeps the lengths and the inserted text and leaves no two neighbours of one kind |
| Changesets.IdentityKeeps | internal/ot/changeset.go:39-62 | the identity keeps every text, and among valid changesets the test accepts only it |
| Following.ConvergesExactly | internal/ot/follow.go:83-143 | for valid A and B on one text, A then f(A,B) equals B then f(B,A) if and only if at each place the inserts of both read the same in either order |
| Following.Converges | internal/ot/follow.go:83-143 | the convergence law of section 8 of the EasySync manual, for changesets without neighbouring inserts, equal strings included |
| Following.ValidIsNotEnough | internal/ot/changeset.go:114-146 | two changesets `Validate` accepts that do not converge |
| Following.FollowedMeaning | internal/ot/follow.go:83-143 | f(A,B) is valid on A's result, and applying both gives the merge of A and B |
| Following.FollowedOk | internal/ot/follow.go:5-146 | f(A,B) is valid, has no two neighbours of one kind, and inserts exactly B's characters in order |
| Following.FollowedOpsOk | internal/ot/follow.go:5-146 | for any two lists of well-formed operations the result is well-formed and its lengths are consistent |
| Following.MergedCommutes | easysync-algorithm-description.md:104-118 | the merge is independent of which changeset comes first exactly when the gaps agree |
| Following.CanonicalGapsAgree | internal/ot/follow.go:91-101 | without neighbouring inserts the tie-break is the same from both sides |
| Following.NothingLeft | internal/ot/follow.go:117-120 | with equal source lengths the walk stops only when both lists are exhausted |
| FollowMarks.FollowedDeletes | internal/ot/follow.go:127-139 | f(A,B) deletes exactly the characters B deletes and A retains, and nothing A inserted |
| FollowOrder.LeqIsLexicographic | internal/ot/follow.go:91-101 | the tie-break compares in the lexicographic order: a prefix comes first, or the smaller character where the texts first differ |
| FollowOrder.SmallerFirst | internal/ot/follow.go:91-115 | of two inserts at any one place the lexicographically smaller stands first in the result, whichever changeset it comes from, and what precedes and follows the place is merged for itself |
| FollowOrder.MergedSplit | internal/ot/follow.go:83-143 | changesets that work on two parts of a text are merged part by part |
| FollowOrder.FollowOfNothing | internal/ot/follow.go:83-143 | rebasing over no change changes nothing |
| Cursors.OpSlice.constructor | internal/ot/follow.go:80-81 | a cursor at the start has the whole list before it |
| Cursors.OpSlice.Peek | internal/ot/follow.go:18-29 | the rest of the current operation, if any is left |
| Cursors.OpSlice.Consume | internal/ot/follow.go:31-49 | what is left is the old rest without its first n characters, across operations |
| Cursors.Follow | internal/ot/follow.go:5-146 | the two-cursor loop ends and computes f(A,B), with the tie-break of `FollowOrder.SmallerFirst` |
| Composing.ComposedMeaning | internal/ot/compose.go:5-132 | the composition is valid, has no two neighbours of one kind, and has the effect of A and then B (section 6 of the EasySync manual) |
| Composing.ComposedAssociative | internal/ot/compose.go:5-132 | composition is associative in effect |
| Composing.WalkEnds | internal/ot/compose.go:96-99 | with fitting lengths the walk stops only when both lists are exhausted |
| ComposeOrder.ComposeSplit | internal/ot/compose.go:74-129 | lists that meet in the middle are composed part by part |
| ComposeOrder.InsertBeforeDelete | internal/ot/compose.go:82-94 | where B inserts and A deletes, at any place, the insert stands before the deletion |
| Composing.Compose | internal/ot/compose.go:71-131 | the two-cursor loop ends and computes the composition |
| Diffing.DiffMeaning | internal/ot/diff.go:5-90 | the diff is valid on the old text, turns it into the new one, has no two neighbours of one kind, and retains as many characters as the table's last value |
| Diffing.DiffIsOptimal | internal/ot/diff.go:10-49 | no valid changeset from the old text to the new one retains more |
| Diffing.DiffIdentity | web/client.js:542-543 | the diff is the identity exactly if the texts are equal |
| Diffing.DiffDeletesFirst | internal/ot/diff.go:36-49 | of the optimal diffs, the one in which no insert stands directly before a deletion |
| Diffing.DiffKeepsSuffix | internal/ot/diff.go:36-49 | what the texts have in common at the end is kept whole |
| Diffing.RetainedBound | internal/ot/diff.go:15-27 | operations that turn one rest into the other keep no more than the table allows from that cell on |
| Diffing.FillRow | internal/ot/diff.go:16-26 | the inner loop turns a correct row into the next one and touches no other |
| Diffing.FillTable | internal/ot/diff.go:10-27 | every cell holds the length of the longest common subsequence of its prefixes |
| Diffing.Backtrack | internal/ot/diff.go:29-49 | the walk back collects the path in reverse |
| Diffing.ReverseSegs | internal/ot/diff.go:51-54 | swapping ends inwards reverses |
| Diffing.MergeSegs | internal/ot/diff.go:56-87 | the segments become merged operations |
| Diffing.DiffToChangeset | internal/ot/diff.go:5-90 | the loops together compute the diff |
| Documents.ReceiveKeeps | internal/fsm/fsm.go:50-136 | whatever is submitted, the revision counter is the length of the history, the history only grows, and replaying it from the initial text gives the head |
| Documents.TimelyIsApplied | internal/fsm/fsm.go:80-115 | a new submission that was valid at a revision of the history is never rejected, and is applied as itself rebased over exactly what it missed |
| Documents.WhatBecomes | internal/fsm/fsm.go:61-136 | a duplicate or a rejection leaves everything as it was; an application adds one revision by its author and remembers its number, and no other client's changes |
| Documents.FutureIsHead | internal/fsm/fsm.go:83-91 | a base revision the history has not reached counts as its head |
| Documents.LateEdit | internal/fsm/fsm.go:80-103 | rebasing a late edit over a history of any length and applying it at the head gives the text of applying it first and then the shifted history |
| Documents.RebasedValid | internal/fsm/fsm.go:80-91 | a changeset valid where the history starts is valid, once rebased, where it ends |
| Documents.DocumentStateMachine.Rebase | internal/fsm/fsm.go:80-91 | the loop computes the changeset rebased over everything since its base revision |
| Documents.RebasedSnoc | internal/fsm/fsm.go:83-91 | rebasing over one more revision is one more follow |
| Documents.ExactlyOnce | internal/fsm/fsm.go:61-78 | per client the applied submission numbers strictly increase, and a resubmission is a duplicate that changes nothing |
| Documents.LastGrows | internal/fsm/fsm.go:104-115 | the last submission applied for a client only grows |
| Documents.ReceiveAll | internal/fsm/fsm.go:50-136 | the document after any sequence of submissions is in order |
| Documents.DocumentStateMachine.constructor | internal/fsm/fsm.go:31-40 | the initial text at revision 0 |
| Documents.DocumentStateMachine.Apply | internal/fsm/fsm.go:50-136 | the new state and the outcome are those of the transition: duplicate, applied or rejected |
| Documents.DocumentStateMachine.RevisionsSince | internal/fsm/fsm.go:153-163 | the returned revisions complete the history before that revision, and replaying them from the text there gives the head |
| Clients.BroadcastKeepsView | web/client.js:438-476 | for X'=f(B,X), Y'=f(f(X,B),Y), D=f(Y,f(X,B)): A'X'Y' is the view with D applied (section 11.4 of the EasySync manual) |
| Clients.HandleBroadcastOk | web/client.js:430-483 | a broadcast moves the base text on by B, rebases X, and leaves A, X and Y together equal to the screen |
| Clients.BroadcastKeepsTyping | web/client.js:438-468 | the new screen is the merge of what the user typed and the broadcast carried over X; the new Y inserts exactly what the user inserted and deletes exactly what the user deleted and the broadcast left; and so X' for X |
| Clients.LocalEditOk | web/client.js:441-442 | the local edit takes what A and X make to the screen, and keeps as much as any changeset between the two |
| Clients.ConnectOk | web/client.js:351-394 | on a first connection the screen is the server's head, and A, X and Y make it up |
| Clients.HandleAckOk | web/client.js:403-427 | an acknowledgement makes X part of the base text, frees the client, and leaves the screen alone |
| Clients.SubmitTickOk | web/client.js:518-553 | a tick submits exactly if the screen differs from the base text and nothing is outstanding; what it submits takes the base text to the screen, and the screen, base text and revision stay |
| Clients.IdentityTestsAgree | web/client.js:14-18 | on valid changesets the client's identity test and the server's agree |
| Clients.FollowIdentity | web/client.js:438-451 | rebasing "no change" gives "no change" on the new text |
| Clients.Editor.constructor | web/client.js:351-355 | on a first connection the client holds the server's head |
| Clients.Editor.Tick | web/client.js:518-553 | the new state and the message are those of the transition `Clients.SubmitTickOk` is about; an overdue X is submitted again as it stands |
| Clients.Editor.Ack | web/client.js:403-427 | exactly the acknowledgement transition |
| Clients.Editor.Broadcast | web/client.js:430-483 | the new state is that of the transition `Clients.BroadcastKeepsTyping` is about; A, X and Y equal the screen afterwards |
| Collaboration.NextKeeps | web/client.js:403-553 | joining, typing, ticking, committing and delivering keep the session invariant |
| Collaboration.SessionInv | web/client.js:403-553 | the invariant holds in every state of every session |
| Collaboration.CommitApplies | internal/fsm/fsm.go:80-115 | a submission on its way is new and valid at its base revision, so it is applied as itself rebased over what it missed |
| Collaboration.ClientsKnowTheServer | web/client.js:430-483 | at every moment a client's base text is the server's text at its revision, its X is the submission followed through exactly the history it has seen, and its next message can be taken in |
| Collaboration.AckConverges | web/client.js:403-427 | at the acknowledgement X is the very changeset committed, and the base text becomes the server's text at the new revision |
| Collaboration.ScreensAreTheUsers | web/client.js:430-483 | in every session only typing and broadcasts change a screen, and typing puts on it what was typed |
| Collaboration.SubmissionIsTheScreen | web/client.js:531-552 | every submission takes the server's text at its base revision to what was on its author's screen at the tick |
| Collaboration.BroadcastIsMerged | web/client.js:430-483 | in every session a broadcast puts on the screen the merge of what the user typed and the revision carried over X, and Y' keeps what was typed |
| Collaboration.QuiescentClientsAgree | internal/server/websocket.go:389-412 | a client with nothing to hear or to say shows the server's head text |

## Left out

- Transport (`internal/raft/transport.go`, the transport half of `internal/raft/inmem.go`): messages are abstract.
- `internal/store/boltstore.go`: a durable store is the log and the two values that survive a crash.
- WebSocket plumbing, redirects and cluster configuration; of `internal/server` only the routing rule of `onCommit` and the validation before proposing are modelled.
- Reconnection and catch-up of the client (`web/client.js:356-373`), and sessions in which a submission is repeated (`web/client.js:522-529`): the A/X/Y claims are not made there.
- Clients.Editor.Broadcast: the catch branches of the handlers, which only log, are not modelled; the preconditions exclude them, and `Collaboration.ClientsKnowTheServer` shows they never run in a session.
- Apply futures and time-outs of the public API: document correctness does not depend on them.
- Liveness that needs time: election timers, heartbeats and randomised time-outs.
- Leader address tracking and redirects.
- RaftSteps.WinKeeps: winning and setting up the peers is one step, where the source releases the lock in between.
- Byte, UTF-16 and rune differences between Go and JavaScript, and JSON: texts are sequences of one character type, and `EndToEnd` takes the decoder of log entries as a parameter.
- Documents.DocumentStateMachine.Apply: takes a decoded, validated submission whose base revision is not negative; on other operations `Follow` may not terminate, and a negative revision indexes out of range. A command that cannot be decoded is dropped in `EndToEnd.Commands`.
- Cursors.Follow: operations of non-positive length, on which the source's walk may not end, are outside its precondition.
- Composing.Compose: the same.
- Documents.DocumentStateMachine.Rebase: the same, and a negative base revision, which indexes out of range.
- Documents.DocumentStateMachine.RevisionsSince: a negative revision, on which the source panics, is outside its precondition.
- LogStores.InmemLogStore.StoreLogs: an entry with index 0, which the cached bounds take for "none", is outside its precondition; no caller stores one.
- RaftNodes.SortDescending: the library sort is modelled by an insertion sort with the same contract.
- Diffing.ReverseSegs: reverses a sequence value rather than a shared slice.
- `MakeInsert`, `MakeDelete`, `TextToChangeset`, `FirstIndex`, cursor display, logging and the stress-test panel are not modelled.
