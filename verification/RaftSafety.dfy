/** The safety theorems of the Raft implementation, over every run. */
module RaftSafety {
  import opened Raft
  import opened Cluster
  import opened RaftInvariant
  import opened RaftSteps
  import opened RaftReceive
  import opened RaftAnswer
  import opened RaftLate
  import opened RaftPast

  // ----- runs ------------------------------------------------------------------------------------

  /** Every step of a safe cluster keeps the invariant. */
  lemma NextKeepsInv(s: State, s': State, step: Step)
    requires Safe(s) && Next(s, s', step)
    ensures Safe(s')
  {
    hide Inv, PastOk, NoOpsOk, Next;
    NextKeepsCore(s, s', step);
    NextKeepsPast(s, s', step);
    if s.policy == NoOpFirst {
      NextKeepsNoOps(s, s', step);
    }
    StepServers(s, s', step);
  }

  lemma NextKeepsCore(s: State, s': State, step: Step)
    requires Safe(s) && Next(s, s', step)
    ensures Inv(s')
  {
    hide Inv, PastOk, NoOpsOk;
    match step
    case Timeout(i) => TimeoutKeeps(s, s', i);
    case Vote(i, req) => VoteKeeps(s, s', i, req);
    case Count(i, resp) => CountKeeps(s, s', i, resp);
    case Win(i) => WinKeeps(s, s', i);
    case Append(i, data) => AppendKeeps(s, s', i, data);
    case Send(i, p) => SendKeeps(s, s', i, p, s.nodes[i].peers[p].nextIndex);
    case StaleSend(i, p, next) => SendKeeps(s, s', i, p, next);
    case Receive(i, req) => ReceiveKeeps(s, s', i, req);
    case Answer(i, resp, k) => AnswerKeeps(s, s', i, resp, k);
    case LateAnswer(i, resp, k, recorded) => LateAnswerKeeps(s, s', i, resp, k, recorded);
    case Apply(i) => ApplyKeeps(s, s', i);
    case Crash(i, term) => CrashKeeps(s, s', i, term);
    case CrashCleared(i, term) => CrashKeeps(s, s', i, term);
    case CrashCut(i, req, cut) => CrashCutKeeps(s, s', i, req, cut);
  }

  lemma {:induction false} RunInv(r: Run, k: nat)
    requires IsRun(r) && k < |r.states|
    ensures Safe(r.states[k]) && Inv(r.states[k])
  {
    hide Safe, Next, Init;
    if k == 0 {
      InitSafe(r.states[0]);
    } else {
      RunInv(r, k - 1);
      NextKeepsInv(r.states[k - 1], r.states[k], r.steps[k - 1]);
    }
    SafeInv(r.states[k]);
  }

  lemma SafeInv(s: State)
    requires Safe(s)
    ensures Inv(s)
  {
    hide Inv, PastOk, NoOpsOk;
  }

  /** Elections, leaders' logs and commits, once recorded, are never revised. */
  ghost predicate Remembers(h: History, g: History) {
    Later(h, g) && h.commits <= g.commits && h.committed <= g.committed
  }

  lemma NextRemembers(s: State, s': State, step: Step)
    requires Safe(s) && Next(s, s', step)
    ensures Remembers(s.h, s'.h)
  {
    hide Safe, Inv, Next, Later;
    SafeInv(s);
    NextLater(s, s', step);
    NextKeepsInv(s, s', step);
    SafeInv(s');
    if step.Win? || step.Append? {
      SameCommits(s, s', step);
    } else {
      QuietLater(s, s', step);
      CommitRemembers(s, s');
    }
  }

  lemma SameCommits(s: State, s': State, step: Step)
    requires Next(s, s', step) && (step.Win? || step.Append?)
    ensures s'.h.commits == s.h.commits && s'.h.committed == s.h.committed
  {
  }

  lemma LeaderInOrder(s: State, i: Id)
    requires Inv(s) && i in s.nodes
    ensures NodeOk(s.servers, s.h, i, s.nodes[i])
  {
    NodeInOrder(s, i);
  }

  lemma CommitRemembers(s: State, s': State)
    requires Inv(s) && Inv(s') && s'.h.elections == s.h.elections && s'.h.logs == s.h.logs && s.h.commits <= s'.h.commits
    ensures s.h.committed <= s'.h.committed
  {
    hide NodesOk, WinnersOk, BallotsOk, BallotNodesOk, VoteMsgsOk, AppendMsgsOk, ElectionOk, VotersOk, CommitOk, AckOk;
    if s.h.committed != [] {
      var d :| d in s.h.commits && s.h.committed == CommitLog(s.h, d);
      assert CommitLog(s'.h, d) <= s'.h.committed;
    }
  }

  lemma {:induction false} RunRemembers(r: Run, j: nat, k: nat)
    requires IsRun(r) && j <= k < |r.states|
    ensures Remembers(r.states[j].h, r.states[k].h)
    decreases k
  {
    hide Next, Init, Inv;
    if j < k {
      RunRemembers(r, j, k - 1);
      RunInv(r, k - 1);
      NextRemembers(r.states[k - 1], r.states[k], r.steps[k - 1]);
      RemembersTrans(r.states[j].h, r.states[k - 1].h, r.states[k].h);
    }
  }

  lemma RemembersTrans(f: History, g: History, h: History)
    requires Remembers(f, g) && Remembers(g, h)
    ensures Remembers(f, h)
  {
  }

  // ----- election safety ---------------------------------------------------------------------------

  /** At most one leader per term, over the whole run. */
  lemma ElectionSafety(r: Run, j: nat, k: nat, a: Id, b: Id)
    requires IsRun(r) && j <= k < |r.states|
    requires a in r.states[j].nodes && b in r.states[k].nodes
    requires r.states[j].nodes[a].role == Leader && r.states[k].nodes[b].role == Leader
    requires r.states[j].nodes[a].currentTerm == r.states[k].nodes[b].currentTerm
    ensures a == b
  {
    hide IsRun, Inv;
    RunInv(r, j);
    RunInv(r, k);
    RunRemembers(r, j, k);
    LeaderInOrder(r.states[j], a);
    LeaderInOrder(r.states[k], b);
  }

  // ----- log matching -------------------------------------------------------------------------------

  /** Two logs that hold an entry of the same index and term, at whatever times of the run, are identical
      up to it, and the terms of a log never decrease. */
  lemma LogMatching(r: Run, j: nat, k: nat, a: Id, b: Id, x: nat)
    requires IsRun(r) && j < |r.states| && k < |r.states| && a in r.states[j].nodes && b in r.states[k].nodes
    requires x < |r.states[j].nodes[a].log| && x < |r.states[k].nodes[b].log|
    requires r.states[j].nodes[a].log[x].term == r.states[k].nodes[b].log[x].term
    ensures Agree(r.states[j].nodes[a].log, r.states[k].nodes[b].log, x + 1)
    ensures forall y: nat | y <= x :: r.states[j].nodes[a].log[y].term <= r.states[j].nodes[a].log[x].term
  {
    hide IsRun, Inv, LogOk;
    var m, n, last := r.states[j].nodes[a], r.states[k].nodes[b], if j < k then k else j;
    LogAtEnd(r, j, last, a);
    LogAtEnd(r, k, last, b);
    LogsMatch(r.states[last].h, m.log, n.log, m.currentTerm, n.currentTerm, x);
    RunInv(r, j);
    forall y: nat | y <= x ensures m.log[y].term <= m.log[x].term {
      TermsAscendIn(r.states[j], a, y, x);
    }
  }

  /** A log of an earlier state is in order against the later history too. */
  lemma LogAtEnd(r: Run, j: nat, k: nat, a: Id)
    requires IsRun(r) && j <= k < |r.states| && a in r.states[j].nodes
    ensures LogOk(r.states[k].h, r.states[j].nodes[a].log, r.states[j].nodes[a].currentTerm)
  {
    hide IsRun, Inv, LogOk, Remembers;
    RunInv(r, j);
    RunRemembers(r, j, k);
    LeaderInOrder(r.states[j], a);
    LogOkRemembered(r.states[j].h, r.states[k].h, r.states[j].nodes[a].log, r.states[j].nodes[a].currentTerm);
  }

  lemma LogOkRemembered(h: History, g: History, log: seq<Entry>, bound: nat)
    requires Remembers(h, g) && LogOk(h, log, bound)
    ensures LogOk(g, log, bound)
  {
    forall x: nat | x < |log| ensures log[x].term <= bound && EntryOk(g, log, x) {
      assert EntryOk(h, log, x);
      var t := log[x].term;
      assert h.logs[t][..x + 1] == g.logs[t][..x + 1];
    }
  }

  lemma TermsAscendIn(s: State, a: Id, y: nat, x: nat)
    requires Inv(s) && a in s.nodes && y <= x < |s.nodes[a].log|
    ensures s.nodes[a].log[y].term <= s.nodes[a].log[x].term
  {
    hide NodesOk, WinnersOk, BallotsOk, BallotNodesOk, VoteMsgsOk, AppendMsgsOk, HistoryOk, LogOk;
    LeaderInOrder(s, a);
    TermsAscend(s.servers, s.h, s.nodes[a].log, s.nodes[a].currentTerm, y, x);
  }

  /** A leader never overwrites or deletes entries of its own log, however long it leads. */
  lemma LeaderAppendOnly(r: Run, j: nat, k: nat, a: Id)
    requires IsRun(r) && j <= k < |r.states| && a in r.states[j].nodes && a in r.states[k].nodes
    requires r.states[j].nodes[a].role == Leader && r.states[k].nodes[a].role == Leader
    requires r.states[j].nodes[a].currentTerm == r.states[k].nodes[a].currentTerm
    ensures r.states[j].nodes[a].log <= r.states[k].nodes[a].log
  {
    hide IsRun, Inv;
    RunInv(r, j);
    RunInv(r, k);
    RunRemembers(r, j, k);
    LeaderInOrder(r.states[j], a);
    LeaderInOrder(r.states[k], a);
  }

  // ----- leader completeness --------------------------------------------------------------------------

  /** What a leader has committed at any time of the run is in the log of every leader of a later
      term, at any time of the run. */
  lemma CommittedInLaterLeaders(r: Run, j: nat, k: nat, c: Commit, a: Id)
    requires IsRun(r) && j < |r.states| && k < |r.states|
    requires c in r.states[j].h.commits
    requires a in r.states[k].nodes && r.states[k].nodes[a].role == Leader
    requires r.states[k].nodes[a].currentTerm > c.term
    ensures c.index > 0 && |CommitLog(r.states[j].h, c)| == c.index
    ensures CommitLog(r.states[j].h, c) <= r.states[k].nodes[a].log
  {
    hide IsRun, Inv, ElectionOk, VotersOk;
    var m := if j < k then k else j;
    var hj, hk, hm := r.states[j].h, r.states[k].h, r.states[m].h;
    RunInv(r, j);
    RunInv(r, k);
    RunInv(r, m);
    RunRemembers(r, j, m);
    RunRemembers(r, k, m);
    LeaderInOrder(r.states[k], a);
    var t := r.states[k].nodes[a].currentTerm;
    CommitInOrder(r.states[j], c);
    CommitInOrder(r.states[m], c);
    LeaderStart(r.states[k], t);
    LeaderCompletenessIn(r.states[m], c, t);
    assert CommitLog(hm, c) == CommitLog(hj, c);
    assert hm.elections[t].base <= r.states[k].nodes[a].log;
  }

  lemma CommitInOrder(s: State, c: Commit)
    requires Inv(s) && c in s.h.commits
    ensures CommitOk(s.servers, s.h, c)
  {
  }

  lemma LeaderStart(s: State, t: nat)
    requires Inv(s) && t in s.h.elections
    ensures t in s.h.logs && s.h.elections[t].base <= s.h.logs[t]
  {
    assert ElectionOk(s.servers, s.h, t);
  }

  lemma LeaderCompletenessIn(s: State, c: Commit, t: nat)
    requires Inv(s) && c in s.h.commits && t in s.h.elections && t > c.term
    ensures CommitLog(s.h, c) <= s.h.elections[t].base
  {
    hide NodesOk, WinnersOk, BallotsOk, BallotNodesOk, VoteMsgsOk, AppendMsgsOk;
    CommitInOrder(s, c);
    LeaderCompleteness(s.servers, s.h, c, t);
  }

  // ----- state machine safety ---------------------------------------------------------------------------

  /** Every server's applied entries, committed entries included, are a prefix of the one committed
      log. */
  lemma AppliedIsCommittedIn(s: State, a: Id)
    requires Inv(s) && a in s.nodes
    ensures s.nodes[a].lastApplied <= s.nodes[a].commitIndex <= |s.nodes[a].log|
    ensures s.nodes[a].log[..s.nodes[a].commitIndex] <= s.h.committed
    ensures s.nodes[a].applied == s.nodes[a].log[..s.nodes[a].lastApplied]
    ensures s.nodes[a].applied <= s.nodes[a].log[..s.nodes[a].commitIndex]
  {
    hide WinnersOk, BallotsOk, BallotNodesOk, VoteMsgsOk, AppendMsgsOk, ElectionOk, VotersOk, LogOk, AcksKept, LeaderOk,
         CandidateOk, CommitOk, CommitLog;
    var n := s.nodes[a];
    assert NodeOk(s.servers, s.h, a, n);
    if n.commitIndex != 0 {
      var c :| c in s.h.commits && n.commitIndex <= c.index && Agree(CommitLog(s.h, c), n.log, n.commitIndex);
      assert CommitLog(s.h, c) <= s.h.committed;
    }
  }

  /** No two servers ever apply different entries at the same index, at whatever times of the run. */
  lemma StateMachineSafety(r: Run, j: nat, k: nat, a: Id, b: Id, x: nat)
    requires IsRun(r) && j < |r.states| && k < |r.states|
    requires a in r.states[j].nodes && b in r.states[k].nodes
    requires x < |r.states[j].nodes[a].applied| && x < |r.states[k].nodes[b].applied|
    ensures r.states[j].nodes[a].applied[x] == r.states[k].nodes[b].applied[x]
  {
    hide IsRun, Inv;
    RunInv(r, j);
    RunInv(r, k);
    AppliedIsCommittedIn(r.states[j], a);
    AppliedIsCommittedIn(r.states[k], b);
    if j <= k {
      RunRemembers(r, j, k);
    } else {
      RunRemembers(r, k, j);
    }
  }

  /** No step removes or changes an entry its server has committed, conflict truncation and a crash in
      the middle of it included. */
  lemma CommittedNeverCutIn(s: State, s': State, step: Step, a: Id)
    requires Inv(s) && Next(s, s', step) && a in s.nodes
    ensures a in s'.nodes && s.nodes[a].commitIndex <= |s.nodes[a].log|
    ensures Agree(s.nodes[a].log, s'.nodes[a].log, s.nodes[a].commitIndex)
  {
    hide Inv, Next;
    CommitInLog(s, a);
    match step {
      case Receive(i, req) => ReceiveKeepsCommitted(s, s', i, req, a);
      case CrashCut(i, req, cut) => CrashCutKeepsCommitted(s, s', i, req, cut, a);
      case _ => OthersKeepLog(s, s', step, a);
    }
  }

  lemma CommitInLog(s: State, a: Id)
    requires Inv(s) && a in s.nodes
    ensures s.nodes[a].commitIndex <= |s.nodes[a].log|
  {
    hide HistoryOk, NodesOk, WinnersOk, BallotsOk, BallotNodesOk, VoteMsgsOk, AppendMsgsOk;
    LeaderInOrder(s, a);
  }

  /** Only an accepted request can shorten or change a log. */
  lemma OthersKeepLog(s: State, s': State, step: Step, a: Id)
    requires Next(s, s', step) && a in s.nodes && !step.Receive? && !step.CrashCut?
    ensures a in s'.nodes && s.nodes[a].log <= s'.nodes[a].log
  {
    hide IsMajorityIndex, Holders, BackUp, IsQuorum, RecordCommit, Grants;
  }

  lemma ReceiveKeepsCommitted(s: State, s': State, i: Id, req: AppendReq, a: Id)
    requires Inv(s) && Next(s, s', Receive(i, req)) && a in s.nodes && s.nodes[a].commitIndex <= |s.nodes[a].log|
    ensures a in s'.nodes && Agree(s.nodes[a].log, s'.nodes[a].log, s.nodes[a].commitIndex)
  {
    hide Inv, MergeLog, Consistent;
    if a == i && Accepts(s.nodes[a], req) {
      MergeKeepsCommitted(s, a, req);
    }
  }

  lemma CrashCutKeepsCommitted(s: State, s': State, i: Id, req: AppendReq, cut: nat, a: Id)
    requires Inv(s) && Next(s, s', CrashCut(i, req, cut)) && a in s.nodes && s.nodes[a].commitIndex <= |s.nodes[a].log|
    ensures a in s'.nodes && Agree(s.nodes[a].log, s'.nodes[a].log, s.nodes[a].commitIndex)
  {
    hide Inv;
    if a == i {
      CutKeepsCommitted(s, a, req, cut);
    }
  }

  lemma MergeKeepsCommitted(s: State, a: Id, req: AppendReq)
    requires Inv(s) && a in s.nodes && req in s.appendReqs && req.to == a && Accepts(s.nodes[a], req)
    ensures req.prevIndex <= |s.nodes[a].log|
    ensures Agree(s.nodes[a].log, MergeLog(s.nodes[a].log, req.prevIndex, req.entries), s.nodes[a].commitIndex)
  {
    hide HistoryOk, WinnersOk, BallotsOk, BallotNodesOk, VoteMsgsOk, LogOk, AcksKept, LeaderOk, CandidateOk, Committed,
         MergeLog;
    var n := s.nodes[a];
    assert NodeOk(s.servers, s.h, a, n) && AppendReqOk(s.h, req);
    var big, log := ReceivedLog(s.servers, s.h, n, req);
    ReceiverCommitted(s.servers, s.h, a, n, req, log);
  }

  lemma CutKeepsCommitted(s: State, a: Id, req: AppendReq, cut: nat)
    requires Inv(s) && a in s.nodes && req in s.appendReqs && req.to == a && Accepts(s.nodes[a], req)
    requires req.prevIndex <= cut < req.prevIndex + |req.entries| && cut < |s.nodes[a].log|
    requires forall x | req.prevIndex <= x < cut :: s.nodes[a].log[x].term == req.entries[x - req.prevIndex].term
    requires s.nodes[a].log[cut].term != req.entries[cut - req.prevIndex].term
    ensures Agree(s.nodes[a].log, s.nodes[a].log[..cut], s.nodes[a].commitIndex)
  {
    hide HistoryOk, WinnersOk, BallotsOk, BallotNodesOk, VoteMsgsOk, LogOk, AcksKept, LeaderOk, CandidateOk, Committed;
    var n := s.nodes[a];
    assert NodeOk(s.servers, s.h, a, n) && AppendReqOk(s.h, req);
    CommittedInLeader(s.servers, s.h, n.log, n.commitIndex, n.currentTerm, req.term);
    CutLog(s.servers, s.h, n, req, cut);
  }

  // ----- commitment and back-up --------------------------------------------------------------------------

  /** Taking the smaller of the leader's commit index and the follower's last index is the paper's
      rule, the smaller of the leader's commit index and the last new entry: the request always
      carries the whole suffix of the leader's log. */
  lemma FollowerCommitRuleIn(s: State, req: AppendReq, a: Id)
    requires Inv(s) && req in s.appendReqs && a in s.nodes && Accepts(s.nodes[a], req)
    ensures req.leaderCommit <= req.prevIndex + |req.entries|
    ensures var n := s.nodes[a];
            var lastNew := req.prevIndex + |req.entries|;
            HandleAppendReq(n, req).commitIndex
            == if req.leaderCommit > n.commitIndex then Min(req.leaderCommit, lastNew) else n.commitIndex
  {
    hide HistoryOk, WinnersOk, BallotsOk, BallotNodesOk, VoteMsgsOk, LogOk, AcksKept, LeaderOk, CandidateOk, Committed;
    assert NodeOk(s.servers, s.h, a, s.nodes[a]);
    assert AppendReqOk(s.h, req);
    var big, log := ReceivedLog(s.servers, s.h, s.nodes[a], req);
  }

  /** A rejected leader goes back strictly, and never below 1. */
  lemma BackUpProgressIn(s: State, i: Id, resp: AppendResp)
    requires Inv(s) && i in s.nodes && s.nodes[i].role == Leader && resp in s.appendResps
    requires resp.req.leader == i && resp.req.term == s.nodes[i].currentTerm == resp.term && !resp.success
    requires !DeadReq(resp.req)
    ensures 1 <= BackUp(s.nodes[i].log, resp) < resp.req.prevIndex + 1
  {
    hide HistoryOk, WinnersOk, BallotsOk, BallotNodesOk, VoteMsgsOk, AcksKept, CandidateOk, Committed;
    var n := s.nodes[i];
    assert NodeOk(s.servers, s.h, i, n) && AppendRespOk(s.h, resp);
    var t, prev := resp.conflictTerm, resp.req.prevIndex;
    var last := LastOfTerm(n.log, t, |n.log|);
  }

  /** Servers that hold more entries hold fewer. */
  lemma HoldersShrink(n: Node, me: Id, k: nat, m: nat)
    requires k <= m
    ensures Holders(n, me, m) <= Holders(n, me, k)
    ensures |Holders(n, me, m)| <= |Holders(n, me, k)|
  {
    SubsetSize(Holders(n, me, m), Holders(n, me, k));
  }

  /** The paper's rule: `y` is above the commit index, held by a majority, and of the current term. */
  predicate MayCommit(n: Node, me: Id, y: nat) {
    && n.commitIndex < y <= |n.log| && n.log[y - 1].term == n.currentTerm
    && |Holders(n, me, y)| >= (|n.peers| + 1) / 2 + 1
  }

  /** Testing the one majority index commits everything the paper's rule would, and only that. */
  lemma CommitCountingIsExactIn(s: State, i: Id, k: nat, x: nat)
    requires Inv(s) && i in s.nodes && s.nodes[i].role == Leader && IsMajorityIndex(s.nodes[i], i, k)
    ensures var n := s.nodes[i];
            var c := AdvanceCommit(n, k).commitIndex;
            && (MayCommit(n, i, x) ==> c >= x)
            && (c != n.commitIndex ==> MayCommit(n, i, c))
  {
    hide HistoryOk, NodesOk, WinnersOk, BallotsOk, BallotNodesOk, VoteMsgsOk, AppendMsgsOk, AcksKept, LeaderOk,
         CandidateOk, Committed, LogOk, Holders;
    var n := s.nodes[i];
    LeaderInOrder(s, i);
    HeldWithinLog(s, i, k);
    if k < x {
      HoldersShrink(n, i, k + 1, x);
    } else if MayCommit(n, i, x) {
      TermsAscend(s.servers, s.h, n.log, n.currentTerm, x - 1, k - 1);
      TermBound(s.h, n.log, n.currentTerm, k - 1);
    }
  }

  lemma TermBound(h: History, log: seq<Entry>, bound: nat, x: nat)
    requires LogOk(h, log, bound) && x < |log|
    ensures log[x].term <= bound
  {
  }

  /** A majority index lies within the leader's log. */
  lemma HeldWithinLog(s: State, i: Id, k: nat)
    requires Inv(s) && i in s.nodes && s.nodes[i].role == Leader && IsMajorityIndex(s.nodes[i], i, k)
    ensures k <= |s.nodes[i].log|
  {
    hide WinnersOk, BallotsOk, BallotNodesOk, VoteMsgsOk, AppendMsgsOk, AcksKept, CandidateOk, Committed, ElectionOk,
         VotersOk, CommitOk;
    var n := s.nodes[i];
    assert NodeOk(s.servers, s.h, i, n);
    var v :| v in Holders(n, i, k);
    if v in n.peers {
      assert PeerOk(s.h, n.currentTerm, n.log, v, n.peers[v]);
      assert n.peers[v].matchIndex != 0 ==> AckOk(s.h, Ack(v, n.currentTerm, n.peers[v].matchIndex));
    }
  }

  /** Server `i` leads `term` in state `m` and, if it next handles an answer of `p`, it is a rejection
      of the request built from the current `nextIndex`. */
  ghost predicate RejectedNext(r: Run, m: nat, i: Id, p: Id)
    requires m < |r.steps| && m < |r.states|
  {
    var s := r.states[m];
    && i in s.nodes && s.nodes[i].role == Leader && p in s.nodes[i].peers
    && (IsAnswerOf(r.steps[m], i, p) ==>
          var resp := r.steps[m].appendResp;
          !resp.success && resp.term == resp.req.term && resp.req.prevIndex + 1 == s.nodes[i].peers[p].nextIndex)
  }

  predicate IsAnswerOf(step: Step, i: Id, p: Id) {
    step.Answer? && step.i == i && step.appendResp.req.to == p
  }

  /** How many answers of `p` server `i` handles between states `j` and `k`. */
  function Answers(r: Run, j: nat, k: nat, i: Id, p: Id): nat
    requires j <= k <= |r.steps|
    decreases k
  {
    if j == k then 0 else Answers(r, j, k - 1, i, p) + if IsAnswerOf(r.steps[k - 1], i, p) then 1 else 0
  }

  ghost predicate LeadsIn(s: State, i: Id, p: Id, term: nat) {
    i in s.nodes && s.nodes[i].role == Leader && s.nodes[i].currentTerm == term && p in s.nodes[i].peers
  }

  /** While a leader is only rejected by a peer, every rejection lowers `nextIndex`, so there are fewer
      rejections than `nextIndex` was to begin with. */
  lemma {:induction false} RejectionsAreBounded(r: Run, j: nat, k: nat, i: Id, p: Id, term: nat)
    requires IsRun(r) && j <= k < |r.states|
    requires forall m: nat | j <= m <= k :: LeadsIn(r.states[m], i, p, term)
    requires forall m: nat | j <= m < k :: RejectedNext(r, m, i, p)
    ensures LeadsIn(r.states[j], i, p, term) && LeadsIn(r.states[k], i, p, term)
    ensures r.states[k].nodes[i].peers[p].nextIndex >= 1
    ensures r.states[k].nodes[i].peers[p].nextIndex + Answers(r, j, k, i, p) <= r.states[j].nodes[i].peers[p].nextIndex
    decreases k
  {
    hide Inv, Init, Next;
    RunInv(r, k);
    assert LeadsIn(r.states[k], i, p, term);
    NextIndexPositive(r.states[k], i, p);
    if j < k {
      RejectionsAreBounded(r, j, k - 1, i, p, term);
      RunInv(r, k - 1);
      assert RejectedNext(r, k - 1, i, p) && LeadsIn(r.states[k - 1], i, p, term);
      NextIndexStep(r.states[k - 1], r.states[k], r.steps[k - 1], i, p, term);
    }
  }

  lemma NextIndexPositive(s: State, i: Id, p: Id)
    requires Inv(s) && i in s.nodes && s.nodes[i].role == Leader && p in s.nodes[i].peers
    ensures s.nodes[i].peers[p].nextIndex >= 1
  {
    LeaderInOrder(s, i);
    assert PeerOk(s.h, s.nodes[i].currentTerm, s.nodes[i].log, p, s.nodes[i].peers[p]);
  }

  /** Only an answer of `p` moves `nextIndex` for `p` while the leadership lasts, and a rejection of
      the current request lowers it. */
  lemma NextIndexStep(s: State, s': State, step: Step, i: Id, p: Id, term: nat)
    requires Inv(s) && Next(s, s', step) && LeadsIn(s, i, p, term) && LeadsIn(s', i, p, term)
    requires IsAnswerOf(step, i, p) ==>
               && !step.appendResp.success && step.appendResp.term == step.appendResp.req.term
               && step.appendResp.req.prevIndex + 1 == s.nodes[i].peers[p].nextIndex
    ensures var next, next' := s.nodes[i].peers[p].nextIndex, s'.nodes[i].peers[p].nextIndex;
            if IsAnswerOf(step, i, p) then next' < next else next' == next
  {
    hide Inv, MergeLog, Consistent, Grants, IsMajorityIndex, Holders, LateHolders, IsQuorum, RecordCommit, BuildAppendFrom,
         BackUp, LastTerm;
    if IsAnswerOf(step, i, p) {
      BackUpProgressIn(s, i, step.appendResp);
    }
  }

  // ----- the same, over runs ------------------------------------------------------------------------------

  /** Whatever a server has applied at any time of a run is a prefix of what it has committed, and that is
      a prefix of the one committed log of the run's end. */
  lemma AppliedIsCommitted(r: Run, k: nat, a: Id)
    requires IsRun(r) && k < |r.states| && a in r.states[k].nodes
    ensures var n := r.states[k].nodes[a];
            && n.lastApplied <= n.commitIndex <= |n.log| && n.applied == n.log[..n.lastApplied]
            && n.applied <= n.log[..n.commitIndex] <= r.states[|r.steps|].h.committed
  {
    hide IsRun, Inv;
    RunLength(r);
    RunInv(r, k);
    AppliedIsCommittedIn(r.states[k], a);
    RunRemembers(r, k, |r.steps|);
  }

  lemma RunLength(r: Run)
    requires IsRun(r)
    ensures |r.states| == |r.steps| + 1
  {
  }

  lemma RunStep(r: Run, k: nat)
    requires IsRun(r) && k < |r.steps|
    ensures k + 1 < |r.states| && Next(r.states[k], r.states[k + 1], r.steps[k])
  {
  }

  /** In no run does a step remove or change an entry its server has committed, conflict truncation and a
      crash in the middle of it included. */
  lemma CommittedNeverCut(r: Run, k: nat, a: Id)
    requires IsRun(r) && k < |r.steps| && k + 1 < |r.states| && a in r.states[k].nodes
    ensures a in r.states[k + 1].nodes && r.states[k].nodes[a].commitIndex <= |r.states[k].nodes[a].log|
    ensures Agree(r.states[k].nodes[a].log, r.states[k + 1].nodes[a].log, r.states[k].nodes[a].commitIndex)
  {
    hide IsRun, Inv, Next;
    RunInv(r, k);
    RunStep(r, k);
    CommittedNeverCutIn(r.states[k], r.states[k + 1], r.steps[k], a);
  }

  /** In every run, for every request sent and every server that accepts it, the follower's commit rule is
      the paper's. */
  lemma FollowerCommitRule(r: Run, k: nat, req: AppendReq, a: Id)
    requires IsRun(r) && k < |r.states| && req in r.states[k].appendReqs
    requires a in r.states[k].nodes && Accepts(r.states[k].nodes[a], req)
    ensures req.leaderCommit <= req.prevIndex + |req.entries|
    ensures var n := r.states[k].nodes[a];
            var lastNew := req.prevIndex + |req.entries|;
            HandleAppendReq(n, req).commitIndex
            == if req.leaderCommit > n.commitIndex then Min(req.leaderCommit, lastNew) else n.commitIndex
  {
    hide IsRun, Inv, Accepts, HandleAppendReq;
    RunInv(r, k);
    FollowerCommitRuleIn(r.states[k], req, a);
  }

  /** In every run, a rejection in the leader's own term sends it back strictly below the rejected
      position, and never below 1. */
  lemma BackUpProgress(r: Run, k: nat, i: Id, resp: AppendResp)
    requires IsRun(r) && k < |r.states| && i in r.states[k].nodes && r.states[k].nodes[i].role == Leader
    requires resp in r.states[k].appendResps && resp.req.leader == i && !resp.success && !DeadReq(resp.req)
    requires resp.req.term == r.states[k].nodes[i].currentTerm == resp.term
    ensures 1 <= BackUp(r.states[k].nodes[i].log, resp) < resp.req.prevIndex + 1
  {
    hide IsRun, Inv, BackUp;
    RunInv(r, k);
    BackUpProgressIn(r.states[k], i, resp);
  }

  /** In every run, testing the one majority index commits everything the paper's rule would, and only
      that. */
  lemma CommitCountingIsExact(r: Run, j: nat, i: Id, k: nat, x: nat)
    requires IsRun(r) && j < |r.states| && i in r.states[j].nodes && r.states[j].nodes[i].role == Leader
    requires IsMajorityIndex(r.states[j].nodes[i], i, k)
    ensures var n := r.states[j].nodes[i];
            var c := AdvanceCommit(n, k).commitIndex;
            && (MayCommit(n, i, x) ==> c >= x)
            && (c != n.commitIndex ==> MayCommit(n, i, c))
  {
    hide IsRun, Inv, IsMajorityIndex, MayCommit, AdvanceCommit;
    RunInv(r, j);
    CommitCountingIsExactIn(r.states[j], i, k, x);
  }
}
