/** The invariant about former leaders and acknowledgements, step by step. */
module RaftPast {
  import opened Raft
  import opened Cluster
  import opened RaftInvariant
  import opened RaftSteps
  import opened RaftReceive
  import opened RaftLate

  // ----- the history only grows ---------------------------------------------------------------------------

  ghost predicate Later(h: History, g: History) {
    && (forall t | t in h.elections :: t in g.elections && g.elections[t] == h.elections[t])
    && (forall t | t in h.logs :: t in g.logs && h.logs[t] <= g.logs[t])
    && h.acks <= g.acks
  }

  /** A new election is that of the step. */
  ghost predicate NewElections(s: State, s': State, step: Step) {
    forall t | t in s'.h.elections && t !in s.h.elections ::
      step.Win? && step.i in s.nodes && t == s.nodes[step.i].currentTerm && s'.h.elections[t].leader == step.i
  }

  lemma NodeInOrder(s: State, i: Id)
    requires Inv(s) && i in s.nodes
    ensures NodeOk(s.servers, s.h, i, s.nodes[i]) && s.nodes.Keys == s.servers
  {
  }

  lemma SameTerms(servers: set<Id>, h: History)
    requires HistoryOk(servers, h)
    ensures h.elections.Keys == h.logs.Keys
  {
  }

  lemma WinLater(s: State, s': State, i: Id)
    requires Inv(s) && WinStep(s, s', i)
    ensures Later(s.h, s'.h) && NewElections(s, s', Win(i))
  {
    hide HistoryOk, NodesOk, WinnersOk, BallotsOk, BallotNodesOk, VoteMsgsOk, AppendMsgsOk;
    FirstWinner(s, i);
    SameTerms(s.servers, s.h);
  }

  lemma AppendLater(s: State, s': State, i: Id, data: Bytes)
    requires Inv(s) && AppendStep(s, s', i, data)
    ensures Later(s.h, s'.h) && s'.h.elections == s.h.elections
  {
    hide HistoryOk, NodesOk, WinnersOk, BallotsOk, BallotNodesOk, VoteMsgsOk, AppendMsgsOk, LogOk, AcksKept, Committed;
    NodeInOrder(s, i);
  }

  /** All other steps leave elections and logs alone. */
  lemma QuietLater(s: State, s': State, step: Step)
    requires Next(s, s', step) && !step.Win? && !step.Append?
    ensures s'.h.elections == s.h.elections && s'.h.logs == s.h.logs && s.h.acks <= s'.h.acks
    ensures s.h.commits <= s'.h.commits
    ensures !step.Answer? && !step.LateAnswer? ==> s'.h.commits == s.h.commits && s'.h.committed == s.h.committed
  {
    hide HandleVoteReq, HandleAppendReq, Grants, Accepts, AppendAnswer, CountVote, BuildAppendFrom, HandleAppendResp,
         RecordAppend, IsMajorityIndex, Holders, LateHolders, IsQuorum;
  }

  lemma NextLater(s: State, s': State, step: Step)
    requires Inv(s) && Next(s, s', step)
    ensures Later(s.h, s'.h) && NewElections(s, s', step)
  {
    hide Inv;
    match step {
      case Win(i) => WinLater(s, s', i);
      case Append(i, data) => AppendLater(s, s', i, data);
      case _ =>
        hide Next;
        QuietLater(s, s', step);
    }
  }

  // ----- servers a step does not touch -------------------------------------------------------------------------

  lemma HeldLater(h: History, g: History, i: Id, n: Node)
    requires Later(h, g) && OwnTermAcked(h, i, n)
    ensures OwnTermAcked(g, i, n)
  {
    forall x: nat | x < |n.log| && n.log[x].term == n.currentTerm ensures Held(g, i, n.currentTerm, x + 1) {
      assert Held(h, i, n.currentTerm, x + 1);
    }
  }

  /** `a` is not the winner of a new election. */
  lemma LedLater(s: State, s': State, step: Step, a: Id, n: Node)
    requires Later(s.h, s'.h) && NewElections(s, s', step) && LedOk(s.servers, s.h, a, n)
    requires step.Win? ==> step.i != a
    ensures LedOk(s.servers, s'.h, a, n)
  {
    forall p | p in n.peers && n.ledTerm > 0 ensures MatchAcked(s'.h, n.ledTerm, p, n.peers[p]) {
      assert MatchAcked(s.h, n.ledTerm, p, n.peers[p]);
    }
  }

  lemma Untouched(s: State, s': State, step: Step, a: Id)
    requires Next(s, s', step) && a in s.nodes && step.i != a
    ensures a in s'.nodes && s'.nodes[a] == s.nodes[a]
  {
    hide HandleVoteReq, HandleAppendReq, Grants, Accepts, AppendAnswer, CountVote, BuildAppendFrom, HandleAppendResp,
         RecordAppend, IsMajorityIndex, Holders, LateHolders, IsQuorum;
  }

  // ----- the server that moves --------------------------------------------------------------------------------

  /** A server that enters a later term, or forgets its leadership, is no leader of the new term. */
  lemma LedInLaterTerm(s: State, a: Id, n': Node)
    requires Inv(s) && a in s.nodes && LedOk(s.servers, s.h, a, s.nodes[a]) && n'.role != Leader
    requires n'.ledTerm == 0 || (n'.ledTerm == s.nodes[a].ledTerm && n'.peers == s.nodes[a].peers
                                 && n'.currentTerm > s.nodes[a].currentTerm)
    ensures LedOk(s.servers, s.h, a, n')
  {
    hide HistoryOk, BallotsOk, BallotNodesOk, VoteMsgsOk, AppendMsgsOk, LogOk, AcksKept, Committed;
    var n := s.nodes[a];
    NodeInOrder(s, a);
    assert LeaderOf(s.h, n'.currentTerm, a) ==> WinnerOk(n'.currentTerm, a, n);
    assert n.ledTerm > 0 && n.role == Leader ==> n.ledTerm == n.currentTerm;
  }

  /** No entry is of a term its server has not reached. */
  lemma NothingOfLaterTerm(h: History, i: Id, n: Node, n': Node, t: nat)
    requires LogOk(h, n.log, n.currentTerm) && n'.log == n.log && n'.currentTerm == t > n.currentTerm
    ensures OwnTermAcked(h, i, n')
  {
  }

  /** The kinds of moves that need no look at the history: the same records in the same term, a later
      term, or a restart; the log stays. */
  predicate PlainMove(n: Node, n': Node) {
    && n'.log == n.log && n'.role != Leader
    && ((n'.ledTerm == 0 && n'.currentTerm >= n.currentTerm)
        || (n'.ledTerm == n.ledTerm && n'.peers == n.peers
            && (n'.currentTerm > n.currentTerm || (n'.currentTerm == n.currentTerm && n.role != Leader))))
  }

  lemma PlainKeeps(s: State, a: Id, n': Node)
    requires Inv(s) && a in s.nodes && LedOk(s.servers, s.h, a, s.nodes[a]) && OwnTermAcked(s.h, a, s.nodes[a])
    requires PlainMove(s.nodes[a], n')
    ensures LedOk(s.servers, s.h, a, n') && OwnTermAcked(s.h, a, n')
  {
    hide Inv, NodeOk, LogOk;
    NodeInOrder(s, a);
    NodeLog(s, a);
    if n'.ledTerm == 0 || n'.currentTerm > s.nodes[a].currentTerm {
      LedInLaterTerm(s, a, n');
    }
    if n'.currentTerm > s.nodes[a].currentTerm {
      NothingOfLaterTerm(s.h, a, s.nodes[a], n', n'.currentTerm);
    }
  }

  lemma NodeLog(s: State, a: Id)
    requires a in s.nodes && NodeOk(s.servers, s.h, a, s.nodes[a])
    ensures LogOk(s.h, s.nodes[a].log, s.nodes[a].currentTerm)
    ensures s.nodes[a].role == Leader ==>
              s.nodes[a].currentTerm in s.h.logs && s.nodes[a].log == s.h.logs[s.nodes[a].currentTerm]
  {
  }

  /** Steps that make a plain move or none. */
  predicate Simple(step: Step) {
    !step.Win? && !step.Append? && !step.Receive? && !step.Answer? && !step.LateAnswer? && !step.CrashCut?
  }

  lemma SimpleMoves(s: State, s': State, step: Step)
    requires Next(s, s', step) && Simple(step)
    ensures step.i in s.nodes && step.i in s'.nodes
    ensures var n, n' := s.nodes[step.i], s'.nodes[step.i];
            PlainMove(n, n') || (n'.log == n.log && n'.peers == n.peers && n'.ledTerm == n.ledTerm
                                 && n'.role == n.role && n'.currentTerm == n.currentTerm)
  {
    hide UpToDate, BuildAppendFrom, IsQuorum, LastTerm;
  }

  lemma WinPast(s: State, s': State, a: Id)
    requires Inv(s) && WinStep(s, s', a) && OwnTermAcked(s.h, a, s.nodes[a])
    ensures LedOk(s.servers, s'.h, a, s'.nodes[a]) && OwnTermAcked(s'.h, a, s'.nodes[a])
  {
    hide HistoryOk, WinnersOk, BallotsOk, BallotNodesOk, VoteMsgsOk, AppendMsgsOk, LogOk, AcksKept, Committed, IsQuorum,
         OwnTermAcked, Later;
    NodeInOrder(s, a);
    WinLater(s, s', a);
    HeldLater(s.h, s'.h, a, s.nodes[a]);
    SameOwnTerm(s'.h, a, s.nodes[a], s'.nodes[a]);
  }

  lemma SameOwnTerm(h: History, i: Id, n: Node, n': Node)
    requires OwnTermAcked(h, i, n) && n'.log <= n.log && n'.currentTerm == n.currentTerm
    ensures OwnTermAcked(h, i, n')
  {
    forall x: nat | x < |n'.log| && n'.log[x].term == n'.currentTerm ensures Held(h, i, n'.currentTerm, x + 1) {
      assert n'.log[x] == n.log[x];
      assert Held(h, i, n.currentTerm, x + 1);
    }
  }

  lemma AppendPast(s: State, s': State, a: Id, data: Bytes)
    requires Inv(s) && AppendStep(s, s', a, data) && LedOk(s.servers, s.h, a, s.nodes[a])
    requires OwnTermAcked(s.h, a, s.nodes[a])
    ensures LedOk(s.servers, s'.h, a, s'.nodes[a]) && OwnTermAcked(s'.h, a, s'.nodes[a])
  {
    hide Inv;
    var n, n' := s.nodes[a], s'.nodes[a];
    AppendLater(s, s', a, data);
    forall p | p in n'.peers && n.ledTerm > 0 ensures MatchAcked(s'.h, n.ledTerm, p, n'.peers[p]) {
      assert MatchAcked(s.h, n.ledTerm, p, n.peers[p]);
    }
    forall x: nat | x < |n'.log| && n'.log[x].term == n'.currentTerm ensures Held(s'.h, a, n'.currentTerm, x + 1) {
      assert Ack(a, n'.currentTerm, |n'.log|) in s'.h.acks;
    }
  }

  lemma ReceivePast(s: State, s': State, a: Id, req: AppendReq)
    requires Inv(s) && ReceiveStep(s, s', a, req) && LedOk(s.servers, s.h, a, s.nodes[a])
    requires OwnTermAcked(s.h, a, s.nodes[a])
    ensures LedOk(s.servers, s'.h, a, s'.nodes[a]) && OwnTermAcked(s'.h, a, s'.nodes[a])
  {
    hide HistoryOk, NodesOk, WinnersOk, BallotsOk, BallotNodesOk, VoteMsgsOk, LogOk, AcksKept, Committed, MergeLog,
         Consistent, LedOk, OwnTermAcked, LiveReq, Later, NewElections, Inv;
    var n, n', mid := s.nodes[a], s'.nodes[a], FollowerState(s.nodes[a], req);
    SentInOrder(s, req);
    NotTheLeader(s, a, req);
    NextLater(s, s', Receive(a, req));
    if req.term >= n.currentTerm {
      PlainKeeps(s, a, mid);
      LedLater(s, s', Receive(a, req), a, mid);
      HeldLater(s.h, s'.h, a, mid);
      SameLedNode(s.servers, s'.h, a, mid, n');
      if Accepts(n, req) {
        MergedOwnTerm(s, s', a, req);
      }
    } else {
      LedLater(s, s', Receive(a, req), a, n);
      HeldLater(s.h, s'.h, a, n);
    }
  }

  lemma SentInOrder(s: State, req: AppendReq)
    requires Inv(s) && req in s.appendReqs
    ensures AppendReqOk(s.h, req)
  {
  }

  lemma SameLedNode(servers: set<Id>, h: History, i: Id, n: Node, n': Node)
    requires LedOk(servers, h, i, n) && n' == n.(log := n'.log, commitIndex := n'.commitIndex)
    ensures LedOk(servers, h, i, n')
  {
  }

  lemma MergedOwnTerm(s: State, s': State, a: Id, req: AppendReq)
    requires Inv(s) && ReceiveStep(s, s', a, req) && Accepts(s.nodes[a], req) && Later(s.h, s'.h)
    requires OwnTermAcked(s'.h, a, FollowerState(s.nodes[a], req))
    ensures OwnTermAcked(s'.h, a, s'.nodes[a])
  {
    hide HistoryOk, WinnersOk, BallotsOk, BallotNodesOk, VoteMsgsOk, LogOk, AcksKept, Committed, MergeLog, Consistent,
         AppendReqOk, Later;
    var n, n' := s.nodes[a], s'.nodes[a];
    NodeInOrder(s, a);
    NodeLog(s, a);
    SentInOrder(s, req);
    var big, r := ReceivedLog(s.servers, s.h, n, req);
    var m := req.prevIndex + |req.entries|;
    forall x: nat | x < |n'.log| && n'.log[x].term == n'.currentTerm ensures Held(s'.h, a, n'.currentTerm, x + 1) {
      if x < m {
        assert Ack(a, req.term, m) in s'.h.acks;
      } else {
        assert r == n.log;
      }
    }
  }

  lemma AnswerPast(s: State, s': State, a: Id, resp: AppendResp, k: nat)
    requires Inv(s) && AnswerStep(s, s', a, resp, k) && LedOk(s.servers, s.h, a, s.nodes[a])
    requires OwnTermAcked(s.h, a, s.nodes[a])
    ensures LedOk(s.servers, s'.h, a, s'.nodes[a]) && OwnTermAcked(s'.h, a, s'.nodes[a])
  {
    hide Inv, LedOk, OwnTermAcked, IsMajorityIndex, Holders, BackUp, Later, NewElections, AppendRespOk;
    var n, n', step := s.nodes[a], s'.nodes[a], Answer(a, resp, k);
    NextLater(s, s', step);
    LeaderLed(s, a);
    AnsweredInOrder(s, resp);
    if resp.term > n.currentTerm {
      PlainKeeps(s, a, n');
      LedLater(s, s', step, a, n');
      HeldLater(s.h, s'.h, a, n');
    } else {
      RecordedLate(s.servers, s.h, a, n, resp);
      LedLater(s, s', step, a, RecordAppend(n, resp));
      SameLedNode(s.servers, s'.h, a, RecordAppend(n, resp), n');
      HeldLater(s.h, s'.h, a, n);
      SameOwnTerm(s'.h, a, n, n');
    }
  }

  lemma LeaderLed(s: State, a: Id)
    requires Inv(s) && a in s.nodes && s.nodes[a].role == Leader && LedOk(s.servers, s.h, a, s.nodes[a])
    ensures s.nodes[a].ledTerm == s.nodes[a].currentTerm > 0
  {
    NodeInOrder(s, a);
  }

  lemma AnsweredInOrder(s: State, resp: AppendResp)
    requires Inv(s) && resp in s.appendResps
    ensures AppendRespOk(s.h, resp)
  {
  }

  lemma LateAnswerPast(s: State, s': State, a: Id, resp: AppendResp, k: nat, recorded: bool)
    requires Inv(s) && LateAnswerStep(s, s', a, resp, k, recorded) && LedOk(s.servers, s.h, a, s.nodes[a])
    requires OwnTermAcked(s.h, a, s.nodes[a])
    ensures LedOk(s.servers, s'.h, a, s'.nodes[a]) && OwnTermAcked(s'.h, a, s'.nodes[a])
  {
    hide Inv, LedOk, OwnTermAcked, IsMajorityIndex, Holders, LateHolders, BackUp, Later, NewElections, AppendRespOk;
    var n, n', step := s.nodes[a], s'.nodes[a], LateAnswer(a, resp, k, recorded);
    NextLater(s, s', step);
    AnsweredInOrder(s, resp);
    if resp.term > n.currentTerm {
      PlainKeeps(s, a, n');
      LedLater(s, s', step, a, n');
      HeldLater(s.h, s'.h, a, n');
    } else {
      var m := if recorded then RecordAppend(n, resp) else n;
      if recorded {
        RecordedLate(s.servers, s.h, a, n, resp);
      }
      LedLater(s, s', step, a, m);
      LedLater(s, s', step, a, n);
      SameLedNode(s.servers, s'.h, a, if n'.peers == m.peers then m else n, n');
      HeldLater(s.h, s'.h, a, n);
      SameOwnTerm(s'.h, a, n, n');
    }
  }

  lemma CrashCutPast(s: State, s': State, a: Id, req: AppendReq, cut: nat)
    requires Inv(s) && CrashInReceive(s, s', a, req, cut) && OwnTermAcked(s.h, a, s.nodes[a])
    ensures LedOk(s.servers, s'.h, a, s'.nodes[a]) && OwnTermAcked(s'.h, a, s'.nodes[a])
  {
    hide Inv, OwnTermAcked, LogOk, NodeOk, Consistent;
    var n, n' := s.nodes[a], s'.nodes[a];
    NodeInOrder(s, a);
    NodeLog(s, a);
    if req.term == n.currentTerm {
      SameOwnTerm(s.h, a, n, n');
    } else {
      var m := n.(currentTerm := req.term);
      NothingOfLaterTerm(s.h, a, n, m, req.term);
      SameOwnTerm(s.h, a, m, n');
    }
  }

  // ----- all steps ---------------------------------------------------------------------------------------------------

  lemma MoverPast(s: State, s': State, step: Step)
    requires Inv(s) && Next(s, s', step) && step.i in s.nodes
    requires LedOk(s.servers, s.h, step.i, s.nodes[step.i]) && OwnTermAcked(s.h, step.i, s.nodes[step.i])
    ensures step.i in s'.nodes
    ensures LedOk(s.servers, s'.h, step.i, s'.nodes[step.i]) && OwnTermAcked(s'.h, step.i, s'.nodes[step.i])
  {
    hide Inv, LedOk, OwnTermAcked, Later, NewElections;
    match step {
      case Win(i) => WinPast(s, s', i);
      case Append(i, data) => AppendPast(s, s', i, data);
      case Receive(i, req) => ReceivePast(s, s', i, req);
      case Answer(i, resp, k) => AnswerPast(s, s', i, resp, k);
      case LateAnswer(i, resp, k, recorded) => LateAnswerPast(s, s', i, resp, k, recorded);
      case CrashCut(i, req, cut) => CrashCutPast(s, s', i, req, cut);
      case _ =>
        hide Next, PlainMove;
        SimpleMoves(s, s', step);
        SimplePast(s, s', step);
    }
  }

  lemma SimplePast(s: State, s': State, step: Step)
    requires Inv(s) && Next(s, s', step) && Simple(step) && step.i in s.nodes && step.i in s'.nodes
    requires LedOk(s.servers, s.h, step.i, s.nodes[step.i]) && OwnTermAcked(s.h, step.i, s.nodes[step.i])
    requires var n, n' := s.nodes[step.i], s'.nodes[step.i];
             PlainMove(n, n') || (n'.log == n.log && n'.peers == n.peers && n'.ledTerm == n.ledTerm
                                  && n'.role == n.role && n'.currentTerm == n.currentTerm)
    ensures LedOk(s.servers, s'.h, step.i, s'.nodes[step.i]) && OwnTermAcked(s'.h, step.i, s'.nodes[step.i])
  {
    hide Inv, Next, Later, NewElections, PlainMove, OwnTermAcked;
    var i, n, n' := step.i, s.nodes[step.i], s'.nodes[step.i];
    NextLater(s, s', step);
    if PlainMove(n, n') {
      PlainKeeps(s, i, n');
    } else {
      SameOwnTerm(s.h, i, n, n');
    }
    LedLater(s, s', step, i, n');
    HeldLater(s.h, s'.h, i, n');
  }

  lemma LeadersStayAcked(s: State, s': State, step: Step)
    requires Inv(s) && Next(s, s', step) && LeadersAcked(s.h)
    ensures LeadersAcked(s'.h)
  {
    hide Inv;
    match step {
      case Win(i) =>
      case Append(i, data) => LeaderIsRecorded(s, i);
      case _ =>
        hide Next;
        QuietLater(s, s', step);
    }
  }

  lemma LeaderIsRecorded(s: State, i: Id)
    requires Inv(s) && i in s.nodes && s.nodes[i].role == Leader
    ensures LeaderOf(s.h, s.nodes[i].currentTerm, i)
  {
    hide HistoryOk, WinnersOk, BallotsOk, BallotNodesOk, VoteMsgsOk, AppendMsgsOk, LogOk, AcksKept, Committed;
    NodeInOrder(s, i);
  }

  lemma NextKeepsPast(s: State, s': State, step: Step)
    requires Inv(s) && PastOk(s) && Next(s, s', step)
    ensures PastOk(s')
  {
    hide Inv, Next, LedOk, OwnTermAcked, LeadersAcked, Later, NewElections;
    StepServers(s, s', step);
    LeadersStayAcked(s, s', step);
    NextLater(s, s', step);
    MoverPast(s, s', step);
    forall a | a in s'.nodes ensures LedOk(s'.servers, s'.h, a, s'.nodes[a]) && OwnTermAcked(s'.h, a, s'.nodes[a]) {
      if a != step.i {
        Untouched(s, s', step, a);
        LedLater(s, s', step, a, s.nodes[a]);
        HeldLater(s.h, s'.h, a, s.nodes[a]);
      }
    }
  }

  lemma StepServers(s: State, s': State, step: Step)
    requires Next(s, s', step)
    ensures step.i in s.nodes && s'.nodes.Keys == s.nodes.Keys && s'.servers == s.servers && s'.policy == s.policy
  {
    hide HandleVoteReq, HandleAppendReq, Grants, Accepts, AppendAnswer, CountVote, BuildAppendFrom, HandleAppendResp,
         RecordAppend, IsMajorityIndex, Holders, LateHolders, IsQuorum;
  }

  // ----- the no-op first ----------------------------------------------------------------------------------------------

  lemma OwnLater(h: History, g: History, t: nat, k: nat)
    requires Later(h, g) && OwnEntry(h, t, k)
    ensures OwnEntry(g, t, k)
  {
  }

  lemma OwnReqLater(h: History, g: History, req: AppendReq)
    requires Later(h, g) && OwnReq(h, req)
    ensures OwnReq(g, req)
  {
    hide Later, OwnEntry;
    if req.entries != [] {
      OwnLater(h, g, req.term, req.prevIndex + |req.entries|);
    }
  }

  lemma OwnMatchesLater(h: History, g: History, n: Node)
    requires Later(h, g) && OwnMatches(h, n)
    ensures OwnMatches(g, n)
  {
    hide Later, OwnEntry;
    forall p | p in n.peers ensures OwnMatch(g, n.ledTerm, n.peers[p]) {
      assert OwnMatch(h, n.ledTerm, n.peers[p]);
      if n.peers[p].matchIndex != 0 {
        OwnLater(h, g, n.ledTerm, n.peers[p].matchIndex);
      }
    }
  }

  /** A leader that has stored its no-op sends only suffixes that end in its own term. */
  lemma SentOwn(s: State, i: Id, p: Id, next: nat)
    requires Inv(s) && i in s.nodes && s.nodes[i].role == Leader && next >= 1
    requires LastTerm(s.nodes[i].log) == s.nodes[i].currentTerm
    ensures OwnReq(s.h, BuildAppendFrom(s.nodes[i], i, p, next))
  {
    hide Inv, NodeOk, LogOk;
    NodeInOrder(s, i);
    NodeLog(s, i);
  }

  lemma NewReqs(s: State, s': State, step: Step)
    requires Inv(s) && Next(s, s', step) && s.policy == NoOpFirst
    requires forall req | req in s.appendReqs :: OwnReq(s.h, req)
    requires forall resp | resp in s.appendResps :: OwnReq(s.h, resp.req)
    ensures forall req | req in s'.appendReqs :: OwnReq(s.h, req)
    ensures forall resp | resp in s'.appendResps :: OwnReq(s.h, resp.req)
  {
    hide Inv, HandleVoteReq, HandleAppendReq, Grants, Accepts, CountVote, BuildAppendFrom, HandleAppendResp,
         RecordAppend, IsMajorityIndex, Holders, LateHolders, IsQuorum, OwnReq, FirstOfTerm, Consistent;
    match step {
      case Send(i, p) => SentOwn(s, i, p, s.nodes[i].peers[p].nextIndex);
      case StaleSend(i, p, next) => SentOwn(s, i, p, next);
      case _ =>
    }
  }

  lemma NewMatches(s: State, s': State, step: Step)
    requires Inv(s) && PastOk(s) && NoOpsOk(s) && Next(s, s', step)
    ensures step.i in s'.nodes && OwnMatches(s.h, s'.nodes[step.i])
  {
    hide Inv, PastOk, NoOpsOk, OwnMatches;
    OwnMatchesNow(s);
    match step {
      case Win(i) => FreshMatches(s.h, s'.nodes[i]);
      case Answer(i, resp, k) => AnswerMatches(s, s', i, resp, k);
      case LateAnswer(i, resp, k, recorded) => LateAnswerMatches(s, s', i, resp, k, recorded);
      case Crash(i, _) => FreshMatches(s.h, s'.nodes[i]);
      case CrashCleared(i, _) => FreshMatches(s.h, s'.nodes[i]);
      case CrashCut(i, _, _) => FreshMatches(s.h, s'.nodes[i]);
      case _ =>
        hide UpToDate, MergeLog, Consistent, BuildAppendFrom;
        SameMatches(s.h, s.nodes[step.i], s'.nodes[step.i], s.nodes[step.i]);
    }
  }

  lemma OwnMatchesNow(s: State)
    requires NoOpsOk(s)
    ensures forall i | i in s.nodes :: OwnMatches(s.h, s.nodes[i])
    ensures forall resp | resp in s.appendResps :: OwnReq(s.h, resp.req)
  {
  }

  lemma LedNow(s: State, i: Id)
    requires PastOk(s) && i in s.nodes
    ensures LedOk(s.servers, s.h, i, s.nodes[i])
  {
  }

  lemma AnswerMatches(s: State, s': State, i: Id, resp: AppendResp, k: nat)
    requires Inv(s) && PastOk(s) && NoOpsOk(s) && AnswerStep(s, s', i, resp, k)
    ensures OwnMatches(s.h, s'.nodes[i])
  {
    hide Inv, PastOk, NoOpsOk, LedOk, OwnMatches, OwnReq, AppendRespOk, IsMajorityIndex, Holders, BackUp;
    OwnMatchesNow(s);
    LedNow(s, i);
    LeaderLed(s, i);
    AnsweredInOrder(s, resp);
    RecordedLate(s.servers, s.h, i, s.nodes[i], resp);
    SameMatches(s.h, s.nodes[i], s'.nodes[i], RecordAppend(s.nodes[i], resp));
  }

  lemma LateAnswerMatches(s: State, s': State, i: Id, resp: AppendResp, k: nat, recorded: bool)
    requires Inv(s) && PastOk(s) && NoOpsOk(s) && LateAnswerStep(s, s', i, resp, k, recorded)
    ensures OwnMatches(s.h, s'.nodes[i])
  {
    hide Inv, PastOk, NoOpsOk, LedOk, OwnMatches, OwnReq, AppendRespOk, IsMajorityIndex, Holders, LateHolders, BackUp;
    OwnMatchesNow(s);
    LedNow(s, i);
    AnsweredInOrder(s, resp);
    if recorded {
      RecordedLate(s.servers, s.h, i, s.nodes[i], resp);
    }
    SameMatches(s.h, s.nodes[i], s'.nodes[i], if recorded then RecordAppend(s.nodes[i], resp) else s.nodes[i]);
  }

  lemma FreshMatches(h: History, n: Node)
    requires forall p | p in n.peers :: n.peers[p].matchIndex == 0
    ensures OwnMatches(h, n)
  {
  }

  lemma SameMatches(h: History, n: Node, n': Node, m: Node)
    requires OwnMatches(h, n) && OwnMatches(h, m) && n'.ledTerm == n.ledTerm == m.ledTerm && n'.peers in {n.peers, m.peers}
    ensures OwnMatches(h, n')
  {
  }

  lemma NextKeepsNoOps(s: State, s': State, step: Step)
    requires Inv(s) && PastOk(s) && NoOpsOk(s) && s.policy == NoOpFirst && Next(s, s', step)
    ensures NoOpsOk(s')
  {
    hide Inv, PastOk, Next, Later, NewElections, OwnReq, OwnMatches;
    NextLater(s, s', step);
    NewReqs(s, s', step);
    NewMatches(s, s', step);
    StepServers(s, s', step);
    forall req | req in s'.appendReqs ensures OwnReq(s'.h, req) {
      OwnReqLater(s.h, s'.h, req);
    }
    forall resp | resp in s'.appendResps ensures OwnReq(s'.h, resp.req) {
      OwnReqLater(s.h, s'.h, resp.req);
    }
    forall a | a in s'.nodes ensures OwnMatches(s'.h, s'.nodes[a]) {
      if a != step.i {
        Untouched(s, s', step, a);
      }
      OwnMatchesLater(s.h, s'.h, s'.nodes[a]);
    }
  }
}
