/** One Raft server: its state, its messages and the transition each handler makes.

    Everything here is a function on values.  RaftNode.dfy holds the imperative handlers and
    proves each of them equal to the transition below; Cluster.dfy puts the transitions together
    into the runs of a whole cluster.

    Log positions follow the source: the entry with index x (1, 2, ...) is `log[x - 1]`, and 0 is
    the position before the first entry. */
module Raft {
  type Id = string

  newtype Byte = b: int | 0 <= b < 256

  /** The command of a log entry; the empty command is a leader's no-op. */
  type Bytes = seq<Byte>

  /** "" in `votedFor` means that no vote was cast in the current term. */
  const NOBODY: Id := ""

  datatype Role = Follower | Candidate | Leader

  datatype Entry = Entry(term: nat, data: Bytes)

  /** The leader's view of one peer. */
  datatype Peer = Peer(nextIndex: nat, matchIndex: nat)

  /** `currentTerm`, `votedFor` and `log` survive a crash, the rest does not.  `votes` is the
      running tally of `runCandidate`, `ledTerm` the term of the leadership that set up `peers` (0
      before the first since the start), and `applied` the entries handed to the state machine. */
  datatype Node = Node(
    currentTerm: nat,
    votedFor: Id,
    log: seq<Entry>,
    role: Role,
    commitIndex: nat,
    lastApplied: nat,
    peers: map<Id, Peer>,
    ledTerm: nat,
    votes: set<Id>,
    applied: seq<Entry>)

  datatype VoteReq = VoteReq(term: nat, candidate: Id, lastIndex: nat, lastTerm: nat)

  /** A response is matched with the request it answers, as the RPC call of the source does. */
  datatype VoteResp = VoteResp(req: VoteReq, voter: Id, term: nat, granted: bool)

  datatype AppendReq = AppendReq(
    term: nat,
    leader: Id,
    to: Id,
    prevIndex: nat,
    prevTerm: nat,
    entries: seq<Entry>,
    leaderCommit: nat)

  datatype AppendResp = AppendResp(
    req: AppendReq,
    term: nat,
    success: bool,
    conflictTerm: nat,
    conflictIndex: nat)

  function Min(a: nat, b: nat): nat {
    if a < b then a else b
  }

  function LastTerm(log: seq<Entry>): nat {
    if log == [] then 0 else log[|log| - 1].term
  }

  /** `a` and `b` hold the same first `k` entries. */
  predicate Agree(a: seq<Entry>, b: seq<Entry>, k: nat) {
    k <= |a| && k <= |b| && a[..k] == b[..k]
  }

  // ----- elections ---------------------------------------------------------------------------

  predicate UpToDate(candTerm: nat, candIndex: nat, voterTerm: nat, voterIndex: nat) {
    candTerm > voterTerm || (candTerm == voterTerm && candIndex >= voterIndex)
  }

  function StepDown(n: Node, term: nat): Node {
    n.(currentTerm := term, role := Follower, votedFor := NOBODY)
  }

  function StartElection(n: Node, me: Id): Node {
    n.(currentTerm := n.currentTerm + 1, votedFor := me, role := Candidate, votes := {me})
  }

  function ElectionRequest(n: Node, me: Id): VoteReq {
    VoteReq(n.currentTerm, me, |n.log|, LastTerm(n.log))
  }

  /** The voter's state once a request of a higher term has made it step down. */
  function VoterState(n: Node, req: VoteReq): Node {
    if req.term > n.currentTerm then StepDown(n, req.term) else n
  }

  predicate Grants(n: Node, req: VoteReq) {
    && req.term >= n.currentTerm
    && VoterState(n, req).votedFor in {NOBODY, req.candidate}
    && UpToDate(req.lastTerm, req.lastIndex, LastTerm(n.log), |n.log|)
  }

  function HandleVoteReq(n: Node, req: VoteReq): Node {
    if req.term < n.currentTerm then n
    else if Grants(n, req) then VoterState(n, req).(votedFor := req.candidate)
    else VoterState(n, req)
  }

  function VoteAnswer(n: Node, me: Id, req: VoteReq): VoteResp {
    VoteResp(req, me, HandleVoteReq(n, req).currentTerm, Grants(n, req))
  }

  /** A candidate counts an answer to its own current election; a higher term ends the election. */
  function CountVote(n: Node, resp: VoteResp): Node {
    if resp.term > n.currentTerm then StepDown(n, resp.term)
    else if resp.granted then n.(votes := n.votes + {resp.voter})
    else n
  }

  function BecomeLeader(n: Node, others: set<Id>): Node {
    n.(role := Leader, ledTerm := n.currentTerm, peers := map p | p in others :: Peer(|n.log| + 1, 0))
  }

  // ----- replication -------------------------------------------------------------------------

  function AppendEntry(n: Node, data: Bytes): Node {
    n.(log := n.log + [Entry(n.currentTerm, data)])
  }

  /** The request a leader sends to `p` by a record with this `nextIndex`: the whole suffix of its log
      from there on. */
  function BuildAppendFrom(n: Node, me: Id, p: Id, next: nat): AppendReq
    requires next >= 1
  {
    var prev := next - 1;
    AppendReq(n.currentTerm, me, p, prev,
              if 0 < prev <= |n.log| then n.log[prev - 1].term else 0,
              if prev <= |n.log| then n.log[prev..] else [],
              n.commitIndex)
  }

  function BuildAppend(n: Node, me: Id, p: Id): AppendReq
    requires p in n.peers && n.peers[p].nextIndex >= 1
  {
    BuildAppendFrom(n, me, p, n.peers[p].nextIndex)
  }

  /** A request that points past its sender's log.  Only a replaced record leads to one, and
      nobody accepts it. */
  predicate DeadReq(req: AppendReq) {
    req.prevIndex > 0 && req.prevTerm == 0 && req.entries == []
  }

  /** Step 3 of AppendEntries: skip entries whose terms match, cut the log at the first that does
      not, and append what is left. */
  function MergeLog(log: seq<Entry>, prev: nat, entries: seq<Entry>): seq<Entry>
    requires prev <= |log|
    decreases |entries|
  {
    if entries == [] then log
    else if prev == |log| then log + entries
    else if log[prev].term != entries[0].term then log[..prev] + entries
    else MergeLog(log, prev + 1, entries[1..])
  }

  /** The follower's state once it has recognised the sender as the leader of its term. */
  function FollowerState(n: Node, req: AppendReq): Node {
    if req.term > n.currentTerm || n.role != Follower then StepDown(n, req.term) else n
  }

  predicate Consistent(log: seq<Entry>, req: AppendReq) {
    req.prevIndex == 0 || (req.prevIndex <= |log| && log[req.prevIndex - 1].term == req.prevTerm)
  }

  predicate Accepts(n: Node, req: AppendReq) {
    req.term >= n.currentTerm && Consistent(n.log, req)
  }

  function HandleAppendReq(n: Node, req: AppendReq): Node {
    if req.term < n.currentTerm then n
    else if !Consistent(n.log, req) then FollowerState(n, req)
    else
      var log := MergeLog(n.log, req.prevIndex, req.entries);
      FollowerState(n, req).(
        log := log,
        commitIndex := if req.leaderCommit > n.commitIndex then Min(req.leaderCommit, |log|)
                       else n.commitIndex)
  }

  /** The first index of the run of entries with the term of the entry at index `x`. */
  function FirstOfTerm(log: seq<Entry>, x: nat): (r: nat)
    requires 1 <= x <= |log|
    ensures 1 <= r <= x
    ensures forall y | r - 1 <= y < x :: log[y].term == log[x - 1].term
    ensures r > 1 ==> log[r - 2].term != log[x - 1].term
  {
    if x > 1 && log[x - 2].term == log[x - 1].term then FirstOfTerm(log, x - 1) else x
  }

  function AppendAnswer(n: Node, req: AppendReq): AppendResp {
    if req.term < n.currentTerm then AppendResp(req, n.currentTerm, false, 0, 0)
    else if Consistent(n.log, req) then AppendResp(req, req.term, true, 0, 0)
    else if |n.log| < req.prevIndex then AppendResp(req, req.term, false, 0, |n.log| + 1)
    else AppendResp(req, req.term, false, n.log[req.prevIndex - 1].term, FirstOfTerm(n.log, req.prevIndex))
  }

  /** The last index at most `x` whose entry has term `t`; 0 if there is none. */
  function LastOfTerm(log: seq<Entry>, t: nat, x: nat): (r: nat)
    requires x <= |log|
    ensures r <= x
    ensures r > 0 ==> log[r - 1].term == t
    ensures forall y | r <= y < x :: log[y].term != t
  {
    if x == 0 then 0 else if log[x - 1].term == t then x else LastOfTerm(log, t, x - 1)
  }

  /** Where a rejected leader continues: after its own last entry of the conflicting term, or at
      the follower's conflict index. */
  function BackUp(log: seq<Entry>, resp: AppendResp): nat {
    var last := LastOfTerm(log, resp.conflictTerm, |log|);
    var next := if resp.conflictTerm > 0 && last > 0 then last + 1 else resp.conflictIndex;
    if next < 1 then 1 else next
  }

  /** The servers known to hold the first `k` entries of leader `me`. */
  function Holders(n: Node, me: Id, k: nat): set<Id> {
    (if k <= |n.log| then {me} else {}) + set p | p in n.peers && n.peers[p].matchIndex >= k
  }

  /** `k` is the largest index held by a majority of the leader and its peers. */
  predicate IsMajorityIndex(n: Node, me: Id, k: nat) {
    && |Holders(n, me, k)| >= (|n.peers| + 1) / 2 + 1
    && |Holders(n, me, k + 1)| < (|n.peers| + 1) / 2 + 1
  }

  /** `advanceCommitIndex`, where `k` is the majority index it found. */
  function AdvanceCommit(n: Node, k: nat): Node {
    if n.commitIndex < k <= |n.log| && n.log[k - 1].term == n.currentTerm then n.(commitIndex := k) else n
  }

  /** A leader's bookkeeping for one answer, before the commit index is reconsidered. */
  function RecordAppend(n: Node, resp: AppendResp): Node
    requires resp.req.to in n.peers
  {
    if resp.success then
      if |resp.req.entries| > 0 then
        var m := resp.req.prevIndex + |resp.req.entries|;
        n.(peers := n.peers[resp.req.to := Peer(m + 1, m)])
      else n
    else n.(peers := n.peers[resp.req.to := n.peers[resp.req.to].(nextIndex := BackUp(n.log, resp))])
  }

  /** The handling of an answer.  `recorded` says that the record of the peer it belongs to is still in
      use: it is not if a new leadership has replaced the peers. */
  function HandleAppendResp(n: Node, resp: AppendResp, k: nat, recorded: bool): Node
    requires recorded ==> resp.req.to in n.peers
  {
    var m := if recorded then RecordAppend(n, resp) else n;
    if resp.term > n.currentTerm then StepDown(n, resp.term)
    else if resp.success then AdvanceCommit(m, k)
    else m
  }

  // ----- applying and restarting -------------------------------------------------------------

  function ApplyNext(n: Node): Node
    requires n.lastApplied < |n.log|
  {
    n.(lastApplied := n.lastApplied + 1, applied := n.applied + [n.log[n.lastApplied]])
  }

  /** `NewRaftNode` on the stores a crash left behind. */
  function Restart(term: nat, votedFor: Id, log: seq<Entry>): Node {
    Node(term, votedFor, log, Follower, 0, 0, map[], 0, {}, [])
  }

  // ----- what a crash can leave on disk ------------------------------------------------------------------

  datatype Disk = Disk(term: nat, vote: Id, log: seq<Entry>)

  function DiskOf(n: Node): Disk {
    Disk(n.currentTerm, n.votedFor, n.log)
  }

  function Reboot(d: Disk): Node {
    Restart(d.term, d.vote, d.log)
  }

  /** Between the two writes of `persistState`: the term being entered, with the old vote. */
  predicate HalfPersisted(n: Node, d: Disk) {
    d.term >= n.currentTerm && d.vote == n.votedFor && d.log == n.log
  }

  /** After a step-down, which enters a later term or makes a candidate a follower of its own term. */
  predicate SteppedDown(n: Node, d: Disk) {
    && (d.term > n.currentTerm || (d.term == n.currentTerm && n.role == Candidate))
    && d.vote == NOBODY && d.log == n.log
  }

  /** `cut` is where the log and the entries of the request first conflict. */
  predicate ConflictAt(log: seq<Entry>, prev: nat, entries: seq<Entry>, cut: nat) {
    && prev <= cut < prev + |entries| && cut < |log|
    && (forall x | prev <= x < cut :: log[x].term == entries[x - prev].term)
    && log[cut].term != entries[cut - prev].term
  }

  /** After the conflicting entries were deleted and before the new ones were stored. */
  predicate CutDisk(n: Node, req: AppendReq, d: Disk, cut: nat) {
    && Accepts(n, req) && ConflictAt(n.log, req.prevIndex, req.entries, cut)
    && d == Disk(req.term, FollowerState(n, req).votedFor, n.log[..cut])
  }
}
