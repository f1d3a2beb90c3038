/** Runs of a whole cluster: the servers, every message ever sent, and what has happened so far.

    The network may delay, reorder, duplicate and lose messages: a message once sent stays in its
    set, and a step may handle any message of the sets at any time, or never.  A server may crash
    at any moment, also between the two writes of `persistState` and between the two log-store
    calls of `handleAppendEntries`. */
module Cluster {
  import opened Raft

  /** The election of a term: who won, with which log, by whose votes. */
  datatype Election = Election(leader: Id, base: seq<Entry>, quorum: set<Id>)

  datatype VoteKey = VoteKey(term: nat, voter: Id)

  /** A vote cast for another server, and the voter's log when it was cast. */
  datatype Ballot = Ballot(candidate: Id, log: seq<Entry>)

  /** `node` held the first `index` entries of the leader's log while in `term`. */
  datatype Ack = Ack(node: Id, term: nat, index: nat)

  /** The leader of `term` committed `index` because `quorum` held it. */
  datatype Commit = Commit(term: nat, index: nat, quorum: set<Id>)

  /** What has happened so far.  No server reads it: it only records the past, so that invariants
      can speak about it.  `logs[t]` is the log of the leader of term t, at its longest;
      `committed` is the longest log prefix ever committed. */
  datatype History = History(
    elections: map<nat, Election>,
    logs: map<nat, seq<Entry>>,
    ballots: map<VoteKey, Ballot>,
    acks: set<Ack>,
    commits: set<Commit>,
    committed: seq<Entry>)

  /** How a server treats answers to a leadership it has lost.  `AsWritten`: like any others.  `NoOpFirst`:
      the same, but a leader stores its no-op before its first request.  `Checked`: the handler looks again
      whether it still leads. */
  datatype Policy = AsWritten | NoOpFirst | Checked

  datatype State = State(
    policy: Policy,
    servers: set<Id>,
    nodes: map<Id, Node>,
    voteReqs: set<VoteReq>,
    voteResps: set<VoteResp>,
    appendReqs: set<AppendReq>,
    appendResps: set<AppendResp>,
    h: History)

  /** More than half of the servers, as `len(Peers)/2 + 1` counts. */
  predicate IsQuorum(servers: set<Id>, q: set<Id>) {
    q <= servers && |q| >= |servers| / 2 + 1
  }

  /** `q` is in the servers, and too large to be avoided by any quorum. */
  predicate MeetsQuorums(servers: set<Id>, q: set<Id>) {
    q <= servers && |q| + |servers| / 2 + 1 > |servers|
  }

  function Longer(a: seq<Entry>, b: seq<Entry>): seq<Entry> {
    if |a| < |b| then b else a
  }

  // ----- what the past gains -----------------------------------------------------------------

  /** A vote repeated for the same candidate is recorded once. */
  function RecordBallot(h: History, voter: Id, req: VoteReq, log: seq<Entry>): History {
    var key := VoteKey(req.term, voter);
    if key in h.ballots then h else h.(ballots := h.ballots[key := Ballot(req.candidate, log)])
  }

  function RecordElection(h: History, term: nat, leader: Id, log: seq<Entry>, votes: set<Id>): History {
    h.(elections := h.elections[term := Election(leader, log, votes)],
       logs := h.logs[term := log],
       acks := h.acks + {Ack(leader, term, |log|)})
  }

  function RecordLeaderLog(h: History, term: nat, leader: Id, log: seq<Entry>): History {
    h.(logs := h.logs[term := log], acks := h.acks + {Ack(leader, term, |log|)})
  }

  function RecordAck(h: History, node: Id, req: AppendReq): History {
    h.(acks := h.acks + {Ack(node, req.term, req.prevIndex + |req.entries|)})
  }

  function RecordCommit(h: History, term: nat, k: nat, log: seq<Entry>, quorum: set<Id>): History
    requires k <= |log|
  {
    h.(commits := h.commits + {Commit(term, k, quorum)}, committed := Longer(h.committed, log[..k]))
  }

  // ----- the steps ---------------------------------------------------------------------------

  ghost predicate Init(s: State) {
    && s.servers != {} && NOBODY !in s.servers
    && s.nodes == (map i | i in s.servers :: Restart(0, NOBODY, []))
    && s.voteReqs == {} && s.voteResps == {} && s.appendReqs == {} && s.appendResps == {}
    && s.h == History(map[], map[], map[], {}, {}, [])
  }

  /** An election timeout: a follower or candidate starts an election. */
  predicate TimeoutStep(s: State, s': State, i: Id) {
    && i in s.nodes && s.nodes[i].role != Leader
    && var n := StartElection(s.nodes[i], i);
       s' == s.(nodes := s.nodes[i := n], voteReqs := s.voteReqs + {ElectionRequest(n, i)})
  }

  predicate VoteStep(s: State, s': State, i: Id, req: VoteReq) {
    && i in s.nodes && req in s.voteReqs && req.candidate != i
    && var n := s.nodes[i];
       s' == s.(nodes := s.nodes[i := HandleVoteReq(n, req)],
                voteResps := s.voteResps + {VoteAnswer(n, i, req)},
                h := if Grants(n, req) then RecordBallot(s.h, i, req, n.log) else s.h)
  }

  /** The answers of an election arrive on that election's own channel, so a candidate only ever
      counts answers to the request of its current term. */
  predicate CountStep(s: State, s': State, i: Id, resp: VoteResp) {
    && i in s.nodes && resp in s.voteResps && resp.req.candidate == i
    && s.nodes[i].role == Candidate && s.nodes[i].currentTerm == resp.req.term
    && s' == s.(nodes := s.nodes[i := CountVote(s.nodes[i], resp)])
  }

  /** Winning the election and setting up the peers is one step; the no-op follows as an ordinary
      `AppendStep` and may be delayed. */
  predicate WinStep(s: State, s': State, i: Id) {
    && i in s.nodes && s.nodes[i].role == Candidate && IsQuorum(s.servers, s.nodes[i].votes)
    && var n := s.nodes[i];
       s' == s.(nodes := s.nodes[i := BecomeLeader(n, s.servers - {i})],
                h := RecordElection(s.h, n.currentTerm, i, n.log, n.votes))
  }

  /** A client command or the no-op of a new leader. */
  predicate AppendStep(s: State, s': State, i: Id, data: Bytes) {
    && i in s.nodes && s.nodes[i].role == Leader
    && var n := AppendEntry(s.nodes[i], data);
       s' == s.(nodes := s.nodes[i := n], h := RecordLeaderLog(s.h, n.currentTerm, i, n.log))
  }

  predicate SendStep(s: State, s': State, i: Id, p: Id) {
    && i in s.nodes && s.nodes[i].role == Leader && MaySend(s, i)
    && p in s.nodes[i].peers && s.nodes[i].peers[p].nextIndex >= 1
    && s' == s.(appendReqs := s.appendReqs + {BuildAppend(s.nodes[i], i, p)})
  }

  predicate MaySend(s: State, i: Id)
    requires i in s.nodes
  {
    s.policy == NoOpFirst ==> LastTerm(s.nodes[i].log) == s.nodes[i].currentTerm
  }

  /** A replication goroutine of an earlier leadership that has not noticed its end yet sends once more,
      by a record that is no longer among the peers. */
  predicate StaleSendStep(s: State, s': State, i: Id, p: Id, next: nat) {
    && i in s.nodes && s.nodes[i].role == Leader && MaySend(s, i)
    && p in s.nodes[i].peers && next >= 1
    && s' == s.(appendReqs := s.appendReqs + {BuildAppendFrom(s.nodes[i], i, p, next)})
  }

  predicate ReceiveStep(s: State, s': State, i: Id, req: AppendReq) {
    && i in s.nodes && req in s.appendReqs && req.to == i
    && var n := s.nodes[i];
       s' == s.(nodes := s.nodes[i := HandleAppendReq(n, req)],
                appendResps := s.appendResps + {AppendAnswer(n, req)},
                h := if Accepts(n, req) then RecordAck(s.h, i, req) else s.h)
  }

  /** An answer to a request of the current leadership; after an accepted request `k` is the majority
      index found.  A request that points past the log was sent by a replaced record, so its answer is
      not recorded. */
  predicate AnswerStep(s: State, s': State, i: Id, resp: AppendResp, k: nat) {
    && i in s.nodes && resp in s.appendResps && resp.req.leader == i
    && s.nodes[i].role == Leader && s.nodes[i].currentTerm == resp.req.term
    && resp.req.to in s.nodes[i].peers && !DeadReq(resp.req)
    && var n := s.nodes[i];
       var m := RecordAppend(n, resp);
       var n' := HandleAppendResp(n, resp, k, true);
    && (resp.success && resp.term <= n.currentTerm ==> IsMajorityIndex(m, i, k))
    && s' == s.(nodes := s.nodes[i := n'],
                h := if n'.commitIndex != n.commitIndex && k <= |n.log|
                     then RecordCommit(s.h, n.currentTerm, k, n.log, Holders(m, i, k)) else s.h)
  }

  /** An answer that reaches a server after the leadership it belongs to has ended, or by a record that
      has been replaced.  It does so only in the life of the process that led (`ledTerm`); its record is
      still in use (`recorded`) if no new leadership has replaced the peers.  The handler treats it like
      any other answer, unless it is a checked one and the server does not lead. */
  predicate LateAnswerStep(s: State, s': State, i: Id, resp: AppendResp, k: nat, recorded: bool) {
    && i in s.nodes && resp in s.appendResps && resp.req.leader == i && s.nodes[i].ledTerm > 0
    && (recorded ==> && s.nodes[i].role != Leader && s.nodes[i].ledTerm == resp.req.term
                     && resp.req.to in s.nodes[i].peers)
    && var n := s.nodes[i];
       var m := if recorded then RecordAppend(n, resp) else n;
       var n' := if s.policy == Checked && n.role != Leader && resp.term <= n.currentTerm then n
                 else HandleAppendResp(n, resp, k, recorded);
    && (resp.success && resp.term <= n.currentTerm ==> IsMajorityIndex(m, i, k))
    && s' == s.(nodes := s.nodes[i := n'],
                h := if n'.commitIndex != n.commitIndex && k <= |n.log|
                     then RecordCommit(s.h, n.currentTerm, k, n.log, LateHolders(s.h, n, i, k)) else s.h)
  }

  /** Who is known to hold what a late answer commits: for a leader the servers it counted, for a follower
      itself and the leader it follows. */
  function LateHolders(h: History, n: Node, i: Id, k: nat): set<Id> {
    if n.role == Leader then Holders(n, i, k)
    else {i} + if n.currentTerm in h.elections then {h.elections[n.currentTerm].leader} else {}
  }

  /** The apply loop hands one committed entry to the state machine. */
  predicate ApplyStep(s: State, s': State, i: Id) {
    && i in s.nodes
    && s.nodes[i].lastApplied < s.nodes[i].commitIndex && s.nodes[i].lastApplied < |s.nodes[i].log|
    && s' == s.(nodes := s.nodes[i := ApplyNext(s.nodes[i])])
  }

  /** Crash and restart.  `term` is the term on disk: the current one, or, when the crash fell
      between the two writes of `persistState`, the later term being entered, while the vote on
      disk is still the old one. */
  predicate CrashStep(s: State, s': State, i: Id, term: nat) {
    && i in s.nodes
    && var d := Disk(term, s.nodes[i].votedFor, s.nodes[i].log);
       HalfPersisted(s.nodes[i], d) && s' == s.(nodes := s.nodes[i := Reboot(d)])
  }

  /** Crash inside a handler right after a step-down was persisted: the vote on disk is cleared. */
  predicate CrashAfterStepDown(s: State, s': State, i: Id, term: nat) {
    && i in s.nodes
    && var d := Disk(term, NOBODY, s.nodes[i].log);
       SteppedDown(s.nodes[i], d) && s' == s.(nodes := s.nodes[i := Reboot(d)])
  }

  /** Crash inside `handleAppendEntries`, after the conflicting entries were deleted and before the
      new ones were stored: only what the two logs share is left. */
  predicate CrashInReceive(s: State, s': State, i: Id, req: AppendReq, cut: nat) {
    && i in s.nodes && req in s.appendReqs && req.to == i && Accepts(s.nodes[i], req)
    && var n := s.nodes[i];
    && ConflictAt(n.log, req.prevIndex, req.entries, cut)
    && s' == s.(nodes := s.nodes[i := Reboot(Disk(req.term, FollowerState(n, req).votedFor, n.log[..cut]))])
  }

  datatype Step =
    | Timeout(i: Id)
    | Vote(i: Id, voteReq: VoteReq)
    | Count(i: Id, voteResp: VoteResp)
    | Win(i: Id)
    | Append(i: Id, data: Bytes)
    | Send(i: Id, p: Id)
    | StaleSend(i: Id, p: Id, next: nat)
    | Receive(i: Id, appendReq: AppendReq)
    | Answer(i: Id, appendResp: AppendResp, k: nat)
    | LateAnswer(i: Id, appendResp: AppendResp, k: nat, recorded: bool)
    | Apply(i: Id)
    | Crash(i: Id, term: nat)
    | CrashCleared(i: Id, term: nat)
    | CrashCut(i: Id, appendReq: AppendReq, cut: nat)

  predicate Next(s: State, s': State, step: Step) {
    match step
    case Timeout(i) => TimeoutStep(s, s', i)
    case Vote(i, req) => VoteStep(s, s', i, req)
    case Count(i, resp) => CountStep(s, s', i, resp)
    case Win(i) => WinStep(s, s', i)
    case Append(i, data) => AppendStep(s, s', i, data)
    case Send(i, p) => SendStep(s, s', i, p)
    case StaleSend(i, p, next) => StaleSendStep(s, s', i, p, next)
    case Receive(i, req) => ReceiveStep(s, s', i, req)
    case Answer(i, resp, k) => AnswerStep(s, s', i, resp, k)
    case LateAnswer(i, resp, k, recorded) => LateAnswerStep(s, s', i, resp, k, recorded)
    case Apply(i) => ApplyStep(s, s', i)
    case Crash(i, term) => CrashStep(s, s', i, term)
    case CrashCleared(i, term) => CrashAfterStepDown(s, s', i, term)
    case CrashCut(i, req, cut) => CrashInReceive(s, s', i, req, cut)
  }

  /** A run: its states, one more than its steps. */
  datatype Run = Run(states: seq<State>, steps: seq<Step>)

  ghost predicate IsAnyRun(r: Run) {
    && |r.states| == |r.steps| + 1
    && Init(r.states[0])
    && forall k | 0 <= k < |r.steps| :: Next(r.states[k], r.states[k + 1], r.steps[k])
  }

  /** The clusters the safety theorems are about: late answers are checked, or the no-op comes first, or
      there are at most four servers.  StaleAnswer.dfy shows that in all others they fail. */
  predicate SafeCluster(policy: Policy, servers: set<Id>) {
    policy != AsWritten || |servers| <= 4
  }

  ghost predicate IsRun(r: Run) {
    IsAnyRun(r) && SafeCluster(r.states[0].policy, r.states[0].servers)
  }

  function Last(p: Run): State
    requires p.states != []
  {
    p.states[|p.states| - 1]
  }

  lemma LastOfRun(r: Run)
    requires IsRun(r)
    ensures |r.states| == |r.steps| + 1 && Last(r) == r.states[|r.steps|]
  {
  }
}
