/** Every step of the cluster keeps the invariant. */
module RaftSteps {
  import opened Raft
  import opened Cluster
  import opened RaftInvariant
  import opened RaftFrame

  /** How a server may change without breaking what others rely on: terms only grow, and within a
      term a follower keeps its vote, a leader keeps its vote and does not become a candidate, and a
      candidate was one before, with the same log. */
  predicate Moves(n: Node, n': Node) {
    n'.currentTerm > n.currentTerm
    || (&& n'.currentTerm == n.currentTerm
        && (n.role == Follower ==> n'.role == Follower && (n.votedFor != NOBODY ==> n'.votedFor == n.votedFor))
        && (n.role == Leader ==> n'.role != Candidate && n'.votedFor == n.votedFor)
        && (n'.role == Candidate ==> n.role == Candidate && n'.log == n.log))
  }

  /** Only server `i` moves, and the history and the messages only grow. */
  ghost predicate OneMoves(s: State, s': State, i: Id) {
    && i in s.nodes && s'.servers == s.servers
    && i in s'.nodes && s'.nodes == s.nodes[i := s'.nodes[i]]
    && Moves(s.nodes[i], s'.nodes[i])
    && Grows(s.h, s'.h, i)
    && (forall a | a in s'.h.acks && a !in s.h.acks :: a.term >= s.nodes[i].currentTerm)
  }

  /** What is new in the history concerns `i` and is in order. */
  ghost predicate NewVotesOk(s: State, s': State, i: Id)
    requires i in s'.nodes
  {
    && (forall t | t in s'.h.elections && t !in s.h.elections ::
          && s'.h.elections[t].leader == i && WinnerOk(t, i, s'.nodes[i])
          && (forall key | key in s.h.ballots && key.term == t :: key.voter != i))
    && (forall key | key in s'.h.ballots && key !in s.h.ballots ::
          && BallotOk(s'.h, key)
          && key.voter in s'.nodes && BallotVoterOk(key.term, s'.h.ballots[key], s'.nodes[key.voter])
          && s'.h.ballots[key].candidate in s'.nodes
          && BallotCandidateOk(key.term, s'.h.ballots[key], s'.nodes[s'.h.ballots[key].candidate]))
  }

  ghost predicate NewMsgsOk(s: State, s': State) {
    && (forall m | m in s'.voteReqs && m !in s.voteReqs ::
          m.candidate in s'.nodes && VoteReqOk(m, s'.nodes[m.candidate]))
    && (forall m | m in s'.voteResps && m !in s.voteResps :: m.voter in s'.servers && VoteRespOk(s'.h, m))
    && (forall m | m in s'.appendReqs && m !in s.appendReqs :: AppendReqOk(s'.h, m))
    && (forall m | m in s'.appendResps && m !in s.appendResps :: AppendRespOk(s'.h, m))
  }

  lemma CarryNodes(s: State, s': State, i: Id)
    requires Inv(s) && OneMoves(s, s', i)
    requires NodeOk(s.servers, s'.h, i, s'.nodes[i])
    ensures NodesOk(s')
  {
    hide LogOk, Kept, Committed, WinnersOk, BallotsOk, BallotNodesOk, VoteMsgsOk, AppendMsgsOk, ElectionOk, VotersOk,
         CommitOk, NodeOk, Grows, Moves;
    forall j | j in s'.nodes
      ensures NodeOk(s'.servers, s'.h, j, s'.nodes[j])
    {
      if j != i {
        NodeGrows(s.servers, s.h, s'.h, i, j, s.nodes[j]);
      }
    }
  }

  lemma CarryWinners(s: State, s': State, i: Id)
    requires Inv(s) && OneMoves(s, s', i) && NewVotesOk(s, s', i)
    ensures WinnersOk(s')
  {
    hide LogOk, Committed, NodeOk, BallotsOk, BallotNodesOk, VoteMsgsOk, AppendMsgsOk, VotersOk, CommitOk, BallotOk;
    forall t | t in s'.h.elections
      ensures s'.h.elections[t].leader in s'.nodes
      ensures WinnerOk(t, s'.h.elections[t].leader, s'.nodes[s'.h.elections[t].leader])
    {
      if t in s.h.elections {
        assert WinnerOk(t, s.h.elections[t].leader, s.nodes[s.h.elections[t].leader]);
        assert s.h.elections[t].leader in s.servers;
      }
    }
  }

  lemma CarryBallots(s: State, s': State, i: Id)
    requires Inv(s) && OneMoves(s, s', i) && NewVotesOk(s, s', i)
    ensures BallotsOk(s')
  {
    hide LogOk, Kept, Committed, NodeOk, WinnersOk, VoteMsgsOk, AppendMsgsOk, ElectionOk, VotersOk, CommitOk, BallotOk;
    forall key | key in s'.h.ballots
      ensures BallotOk(s'.h, key)
    {
      if key in s.h.ballots {
        assert BallotOk(s.h, key);
        assert BallotVoterOk(key.term, s.h.ballots[key], s.nodes[key.voter]);
        BallotGrows(s.h, s'.h, i, key);
      }
    }
  }

  lemma CarryBallotNodes(s: State, s': State, i: Id)
    requires Inv(s) && OneMoves(s, s', i) && NewVotesOk(s, s', i)
    ensures BallotNodesOk(s')
  {
    hide LogOk, Kept, Committed, NodeOk, VoteMsgsOk, AppendMsgsOk, ElectionOk, VotersOk, CommitOk, BallotOk, WinnersOk;
    forall key | key in s'.h.ballots
      ensures key.voter in s'.nodes && BallotVoterOk(key.term, s'.h.ballots[key], s'.nodes[key.voter])
      ensures s'.h.ballots[key].candidate in s'.nodes
      ensures BallotCandidateOk(key.term, s'.h.ballots[key], s'.nodes[s'.h.ballots[key].candidate])
    {
      if key in s.h.ballots {
        assert s.h.ballots[key].candidate in s.servers;
        assert BallotVoterOk(key.term, s.h.ballots[key], s.nodes[key.voter]);
        assert BallotCandidateOk(key.term, s.h.ballots[key], s.nodes[s.h.ballots[key].candidate]);
      }
    }
  }

  lemma CarryVoteMsgs(s: State, s': State, i: Id)
    requires Inv(s) && OneMoves(s, s', i) && NewMsgsOk(s, s')
    ensures VoteMsgsOk(s')
  {
    hide LogOk, Kept, Committed, NodeOk, WinnersOk, BallotsOk, BallotNodesOk, AppendMsgsOk, ElectionOk, VotersOk, CommitOk;
    forall m | m in s'.voteReqs
      ensures m.candidate in s'.nodes && VoteReqOk(m, s'.nodes[m.candidate])
    {
      if m in s.voteReqs {
        assert VoteReqOk(m, s.nodes[m.candidate]);
      }
    }
    forall m | m in s'.voteResps
      ensures m.voter in s'.servers && VoteRespOk(s'.h, m)
    {
      if m in s.voteResps {
        assert VoteRespOk(s.h, m);
      }
    }
  }

  lemma CarryAppendMsgs(s: State, s': State, i: Id)
    requires Inv(s) && OneMoves(s, s', i) && NewMsgsOk(s, s')
    ensures AppendMsgsOk(s')
  {
    hide HistoryOk, NodesOk, WinnersOk, BallotsOk, BallotNodesOk, VoteMsgsOk, Moves, Grows, AppendReqOk, AppendRespOk;
    AppendMsgsGrow(s.h, s'.h, i, s.appendReqs, s.appendResps);
  }

  /** The invariant holds after a step of `i` once the history and `i` itself are in order and what
      is new is in order. */
  lemma Assemble(s: State, s': State, i: Id)
    requires Inv(s) && OneMoves(s, s', i) && NewVotesOk(s, s', i) && NewMsgsOk(s, s')
    requires HistoryOk(s.servers, s'.h)
    requires NodeOk(s.servers, s'.h, i, s'.nodes[i])
    ensures Inv(s')
  {
    hide HistoryOk, NodesOk, WinnersOk, BallotsOk, BallotNodesOk, VoteMsgsOk, AppendMsgsOk, NodeOk, Moves, Grows,
         NewVotesOk, NewMsgsOk;
    CarryNodes(s, s', i);
    CarryWinners(s, s', i);
    CarryBallots(s, s', i);
    CarryBallotNodes(s, s', i);
    CarryVoteMsgs(s, s', i);
    CarryAppendMsgs(s, s', i);
  }

  lemma GrowsSelf(h: History, i: Id)
    ensures Grows(h, h, i)
  {
  }

  // ----- steps that add nothing to the history --------------------------------------------------

  lemma TimeoutKeeps(s: State, s': State, i: Id)
    requires Inv(s) && TimeoutStep(s, s', i)
    ensures Inv(s')
  {
    hide HistoryOk, WinnersOk, BallotsOk, BallotNodesOk, AppendMsgsOk, LogOk, AcksKept, Committed;
    var n, n' := s.nodes[i], s'.nodes[i];
    assert NodeOk(s.servers, s.h, i, n);
    LaterTermOk(s, i, n');
    Assemble(s, s', i);
  }

  /** A server that enters a later term, or only forgets volatile state, stays in order. */
  lemma LaterTermOk(s: State, i: Id, n': Node)
    requires Inv(s) && i in s.nodes
    requires n'.log == s.nodes[i].log && n'.currentTerm >= s.nodes[i].currentTerm
    requires n'.role != Leader
    requires n'.role == Candidate ==> n'.votedFor == i && n'.currentTerm >= 1 && CandidateOk(s.servers, s.h, i, n')
    requires n'.commitIndex in {0, s.nodes[i].commitIndex} && n'.lastApplied <= n'.commitIndex
    requires n'.applied == n'.log[..n'.lastApplied]
    ensures NodeOk(s.servers, s.h, i, n')
  {
    hide WinnersOk, BallotsOk, BallotNodesOk, VoteMsgsOk, AppendMsgsOk, ElectionOk, VotersOk, CommitOk, LogOk, Lost;
    var h, n := s.h, s.nodes[i];
    assert NodeOk(s.servers, h, i, n);
    GrowsSelf(h, i);
    forall a, k: nat | a in h.acks && a.node == i && k <= a.index
      ensures a.term <= n'.currentTerm && Kept(h, a.term, k, n'.log, n'.currentTerm)
    {
      assert AckOk(h, a);
      KeptGrows(h, h, i, a.term, k, n.log, n.currentTerm, n'.currentTerm);
    }
    CommittedGrows(h, h, i, n.log, n.commitIndex, n.currentTerm, n'.currentTerm);
    LogOkWeaken(h, n.log, n.currentTerm, n'.currentTerm);
  }

  lemma CountKeeps(s: State, s': State, i: Id, resp: VoteResp)
    requires Inv(s) && CountStep(s, s', i, resp)
    ensures Inv(s')
  {
    hide HistoryOk, WinnersOk, BallotsOk, BallotNodesOk, AppendMsgsOk, LogOk, AcksKept, Committed;
    var n, n' := s.nodes[i], s'.nodes[i];
    assert NodeOk(s.servers, s.h, i, n);
    assert VoteRespOk(s.h, resp);
    LaterTermOk(s, i, n');
    GrowsSelf(s.h, i);
    Assemble(s, s', i);
  }

  lemma CrashKeeps(s: State, s': State, i: Id, term: nat)
    requires Inv(s) && (CrashStep(s, s', i, term) || CrashAfterStepDown(s, s', i, term))
    ensures Inv(s')
  {
    hide HistoryOk, WinnersOk, BallotsOk, BallotNodesOk, VoteMsgsOk, AppendMsgsOk, LogOk, AcksKept, Committed;
    assert NodeOk(s.servers, s.h, i, s.nodes[i]);
    LaterTermOk(s, i, s'.nodes[i]);
    GrowsSelf(s.h, i);
    Assemble(s, s', i);
  }

  lemma ApplyKeeps(s: State, s': State, i: Id)
    requires Inv(s) && ApplyStep(s, s', i)
    ensures Inv(s')
  {
    hide HistoryOk, WinnersOk, BallotsOk, BallotNodesOk, AppendMsgsOk, LogOk, AcksKept, Committed;
    var n, n' := s.nodes[i], s'.nodes[i];
    assert NodeOk(s.servers, s.h, i, n);
    assert n'.applied == n'.log[..n'.lastApplied];
    GrowsSelf(s.h, i);
    Assemble(s, s', i);
  }

  /** A request of the current leadership, or of a goroutine of an earlier one. */
  lemma SendKeeps(s: State, s': State, i: Id, p: Id, next: nat)
    requires Inv(s) && StaleSendStep(s, s', i, p, next)
    ensures Inv(s')
  {
    hide HistoryOk, WinnersOk, BallotsOk, BallotNodesOk, VoteMsgsOk, AppendMsgsOk, LogOk, AcksKept, Committed, AppendReqOk,
         BuildAppendFrom, LeaderOk;
    assert NodeOk(s.servers, s.h, i, s.nodes[i]);
    BuiltReqOk(s.servers, s.h, i, s.nodes[i], p, next);
    GrowsSelf(s.h, i);
    assert s'.nodes == s.nodes[i := s'.nodes[i]];
    Assemble(s, s', i);
  }

  lemma BuiltReqOk(servers: set<Id>, h: History, i: Id, n: Node, p: Id, next: nat)
    requires NodeOk(servers, h, i, n) && n.role == Leader && p in n.peers && next >= 1
    ensures AppendReqOk(h, BuildAppendFrom(n, i, p, next))
  {
    hide LogOk, AcksKept, Committed;
    if next - 1 <= |n.log| {
      assert n.log[next - 1..|n.log|] == n.log[next - 1..];
    }
  }

  // ----- votes -----------------------------------------------------------------------------------

  lemma VoteKeeps(s: State, s': State, i: Id, req: VoteReq)
    requires Inv(s) && VoteStep(s, s', i, req)
    ensures Inv(s')
  {
    hide HistoryOk, WinnersOk, BallotsOk, BallotNodesOk, AppendMsgsOk, LogOk, AcksKept, Committed;
    var n, n' := s.nodes[i], s'.nodes[i];
    assert NodeOk(s.servers, s.h, i, n);
    assert req.candidate in s.servers && VoteReqOk(req, s.nodes[req.candidate]);
    if Grants(n, req) {
      GrantKeeps(s, s', i, req);
    } else {
      if n' != n {
        LaterTermOk(s, i, n');
      }
      GrowsSelf(s.h, i);
      Assemble(s, s', i);
    }
  }

  /** The history after a new ballot is in order. */
  lemma BallotHistoryOk(servers: set<Id>, h: History, g: History, i: Id)
    requires HistoryOk(servers, h) && Grows(h, g, i)
    requires g == h.(ballots := g.ballots)
    ensures HistoryOk(servers, g)
  {
    hide ElectionOk, VotersOk, CommitOk, CommitLog, Grows;
    HistoryAcksOk(servers, h);
    forall t | t in g.elections ensures ElectionOk(servers, g, t) && VotersOk(g, t) {
      ElectionGrows(servers, h, g, i, t);
      VotersGrow(h, g, i, t);
    }
    forall a | a in g.acks ensures AckOk(g, a) {
      assert AckOk(h, a);
    }
    CommitsGrow(servers, h, g, i);
  }

  lemma NewBallotOk(s: State, i: Id, req: VoteReq, g: History)
    requires Inv(s) && i in s.nodes && req in s.voteReqs && req.candidate != i && Grants(s.nodes[i], req)
    requires VoteKey(req.term, i) !in s.h.ballots
    requires g == RecordBallot(s.h, i, req, s.nodes[i].log)
    ensures BallotOk(g, VoteKey(req.term, i))
  {
    hide ElectionOk, VotersOk, CommitOk, BallotsOk, BallotNodesOk, AppendMsgsOk, LogOk, Committed, Kept;
    var h, n, key := s.h, s.nodes[i], VoteKey(req.term, i);
    assert NodeOk(s.servers, h, i, n);
    assert Grows(h, g, i);
    LogOkGrows(h, g, i, n.log, n.currentTerm);
    LogOkWeaken(g, n.log, n.currentTerm, req.term);
    assert req.term in h.elections && h.elections[req.term].leader == i ==> WinnerOk(req.term, i, n);
    forall a, k: nat | a in g.acks && a.node == i && a.term < req.term && k <= a.index
      ensures Kept(g, a.term, k, n.log, req.term)
    {
      assert AckOk(h, a);
      KeptGrows(h, g, i, a.term, k, n.log, n.currentTerm, req.term);
    }
  }

  lemma BallotGrowsHistory(h: History, i: Id, req: VoteReq, log: seq<Entry>)
    ensures Grows(h, RecordBallot(h, i, req, log), i)
  {
  }

  lemma GrantKeeps(s: State, s': State, i: Id, req: VoteReq)
    requires Inv(s) && VoteStep(s, s', i, req) && Grants(s.nodes[i], req)
    ensures Inv(s')
  {
    hide ElectionOk, VotersOk, CommitOk, WinnersOk, BallotsOk, AppendMsgsOk, LogOk, Committed, AcksKept, BallotOk,
         Grows, HistoryOk;
    var n, n', key := s.nodes[i], s'.nodes[i], VoteKey(req.term, i);
    assert NodeOk(s.servers, s.h, i, n);
    assert VoteReqOk(req, s.nodes[req.candidate]);
    if key in s.h.ballots {
      assert BallotVoterOk(req.term, s.h.ballots[key], n);
    } else {
      NewBallotOk(s, i, req, s'.h);
    }
    assert n.role != Follower ==> n.votedFor == i;
    BallotGrowsHistory(s.h, i, req, n.log);
    BallotHistoryOk(s.servers, s.h, s'.h, i);
    LaterTermOk(s, i, n');
    HistoryAcksOk(s.servers, s.h);
    SameNodeOk(s.servers, s.h, s'.h, i, n');
    Assemble(s, s', i);
  }

  /** A server that is not a leader stays in order when only ballots or commits are recorded. */
  lemma SameNodeOk(servers: set<Id>, h: History, g: History, i: Id, n: Node)
    requires Grows(h, g, i) && g.acks == h.acks && g.logs == h.logs
    requires NodeOk(servers, h, i, n)
    requires forall a | a in h.acks :: AckOk(h, a)
    ensures NodeOk(servers, g, i, n)
  {
    LogOkGrows(h, g, i, n.log, n.currentTerm);
    forall a, k: nat | a in g.acks && a.node == i && k <= a.index
      ensures a.term <= n.currentTerm && Kept(g, a.term, k, n.log, n.currentTerm)
    {
      assert AckOk(h, a);
      KeptGrows(h, g, i, a.term, k, n.log, n.currentTerm, n.currentTerm);
    }
    CommittedGrows(h, g, i, n.log, n.commitIndex, n.currentTerm, n.currentTerm);
    if n.role == Candidate {
      assert forall v | v in n.votes :: VotedFor(h, n.currentTerm, v, i);
    }
  }

  // ----- elections ---------------------------------------------------------------------------------

  /** Election safety, as a step sees it: a candidate with a quorum of votes is the first winner of
      its term. */
  lemma FirstWinner(s: State, i: Id)
    requires Inv(s) && i in s.nodes && s.nodes[i].role == Candidate && IsQuorum(s.servers, s.nodes[i].votes)
    ensures s.nodes[i].currentTerm !in s.h.elections
    ensures VoteKey(s.nodes[i].currentTerm, i) !in s.h.ballots
  {
    hide LogOk, AcksKept, Committed, AppendMsgsOk, VotersOk, CommitOk;
    var n := s.nodes[i];
    var t := n.currentTerm;
    assert NodeOk(s.servers, s.h, i, n);
    assert VoteKey(t, i) in s.h.ballots ==> BallotVoterOk(t, s.h.ballots[VoteKey(t, i)], n);
    if t in s.h.elections {
      var e := s.h.elections[t];
      assert ElectionOk(s.servers, s.h, t);
      var v := QuorumsMeet(s.servers, e.quorum, n.votes);
      TwoVotes(s, t, v, i);
    }
  }

  /** Nobody votes both for the winner of a term and for another candidate of it. */
  lemma TwoVotes(s: State, t: nat, v: Id, i: Id)
    requires Inv(s) && t in s.h.elections && i in s.nodes
    requires VotedFor(s.h, t, v, s.h.elections[t].leader) && VotedFor(s.h, t, v, i)
    ensures s.nodes[i].currentTerm != t || s.nodes[i].role != Candidate
  {
    hide HistoryOk, NodesOk, AppendMsgsOk, VoteMsgsOk, LogOk, Kept;
    var leader := s.h.elections[t].leader;
    assert WinnerOk(t, leader, s.nodes[leader]);
    assert VoteKey(t, v) in s.h.ballots ==>
        BallotOk(s.h, VoteKey(t, v)) && BallotVoterOk(t, s.h.ballots[VoteKey(t, v)], s.nodes[v]);
  }

  /** What a voter acknowledged is in the log of the candidate it voted for, or was lost before. */
  lemma VoteCarriesAcks(s: State, i: Id, v: Id, a: Ack, k: nat)
    requires Inv(s) && i in s.nodes && s.nodes[i].role == Candidate
    requires v in s.nodes[i].votes && s.nodes[i].currentTerm !in s.h.elections
    requires a in s.h.acks && a.node == v && a.term < s.nodes[i].currentTerm
    requires k <= a.index && OwnEntry(s.h, a.term, k)
    ensures Kept(s.h, a.term, k, s.nodes[i].log, s.nodes[i].currentTerm - 1)
  {
    hide AppendMsgsOk, VoteMsgsOk, VotersOk, CommitOk, Committed;
    var h, n := s.h, s.nodes[i];
    var t := n.currentTerm;
    assert NodeOk(s.servers, h, i, n);
    assert VotedFor(h, t, v, i);
    if v == i {
      assert Kept(h, a.term, k, n.log, t);
      LostBefore(h, a.term, k, t);
    } else {
      var key := VoteKey(t, v);
      var b := h.ballots[key];
      assert BallotOk(h, key);
      assert Kept(h, a.term, k, b.log, t);
      assert BallotCandidateOk(t, b, n);
      if Agree(h.logs[a.term], b.log, k) {
        UpToDateKeeps(s.servers, h, n.log, b.log, t, a.term, k);
      } else {
        LostBefore(h, a.term, k, t);
      }
    }
  }

  lemma LostBefore(h: History, t: nat, k: nat, u: nat)
    requires u >= 1 && u !in h.elections
    ensures Lost(h, t, k, u) ==> Lost(h, t, k, u - 1)
  {
  }

  /** The heart of the vote check: a log at least as up to date as one that holds the prefix holds
      it too, or ends in the term of a leader who lost it. */
  lemma UpToDateKeeps(servers: set<Id>, h: History, cand: seq<Entry>, voter: seq<Entry>, t: nat, u: nat, k: nat)
    requires HistoryOk(servers, h) && LogOk(h, cand, t) && LogOk(h, voter, t) && t !in h.elections
    requires UpToDate(LastTerm(cand), |cand|, LastTerm(voter), |voter|)
    requires OwnEntry(h, u, k) && u < t && Agree(h.logs[u], voter, k)
    ensures Kept(h, u, k, cand, t - 1)
  {
    hide VotersOk, CommitOk, CommitLog, ElectionOk, LogOk;
    assert voter[k - 1] == voter[..k][k - 1] == h.logs[u][..k][k - 1];
    TermsAscend(servers, h, voter, t, k - 1, |voter| - 1);
    LastEntryOk(h, cand, t);
    LastEntryOk(h, voter, t);
    var last := LastTerm(cand);
    var base := h.elections[last].base;
    if last == LastTerm(voter) {
      assert voter[..k] == h.logs[last][..k] == cand[..k];
    } else if Agree(h.logs[u], base, k) {
      BaseInLog(servers, h, cand, |cand| - 1);
      assert base[..k] == cand[..k];
    }
  }

  lemma LastEntryOk(h: History, log: seq<Entry>, bound: nat)
    requires LogOk(h, log, bound) && log != []
    ensures LastTerm(log) <= bound && LastTerm(log) in h.logs && log <= h.logs[LastTerm(log)]
  {
    assert EntryOk(h, log, |log| - 1);
  }

  /** A log with an entry of term t contains all the leader of t started with. */
  lemma BaseInLog(servers: set<Id>, h: History, log: seq<Entry>, x: nat)
    requires x < |log| && EntryOk(h, log, x)
    requires log[x].term in h.elections && ElectionOk(servers, h, log[x].term)
    ensures h.elections[log[x].term].base <= log[..x + 1]
  {
    hide LogOk;
    var t := log[x].term;
    assert log[x] == log[..x + 1][x] == h.logs[t][..x + 1][x];
    assert h.elections[t].base == h.logs[t][..|h.elections[t].base|];
  }

  lemma WinHistoryOk(s: State, i: Id, g: History)
    requires Inv(s) && i in s.nodes && s.nodes[i].role == Candidate && IsQuorum(s.servers, s.nodes[i].votes)
    requires s.nodes[i].currentTerm !in s.h.elections
    requires g == RecordElection(s.h, s.nodes[i].currentTerm, i, s.nodes[i].log, s.nodes[i].votes)
    ensures Grows(s.h, g, i) && HistoryOk(s.servers, g)
  {
    hide AppendMsgsOk, VoteMsgsOk, AcksKept, BallotsOk, BallotNodesOk, WinnersOk, Committed, ElectionOk, VotersOk, LogOk,
         CommitOk, Kept, Grows;
    var h, n := s.h, s.nodes[i];
    ElectionHistoryGrows(h, g, i, n);
    forall t | t in h.elections ensures ElectionOk(s.servers, g, t) {
      ElectionGrows(s.servers, h, g, i, t);
    }
    assert NodeOk(s.servers, h, i, n);
    WinElectionOk(s.servers, h, i, n, g);
    WinVotersOk(s, i, g);
    forall a | a in g.acks ensures AckOk(g, a) {
      assert a in h.acks ==> AckOk(h, a);
    }
    CommitsGrow(s.servers, h, g, i);
  }

  lemma ElectionHistoryGrows(h: History, g: History, i: Id, n: Node)
    requires n.currentTerm !in h.elections && n.currentTerm !in h.logs
    requires g == RecordElection(h, n.currentTerm, i, n.log, n.votes)
    ensures Grows(h, g, i)
  {
  }

  lemma CommitsGrow(servers: set<Id>, h: History, g: History, i: Id)
    requires HistoryOk(servers, h) && Grows(h, g, i)
    requires g.commits == h.commits && g.committed == h.committed
    ensures forall c | c in g.commits :: CommitOk(servers, g, c) && CommitLog(g, c) <= g.committed
    ensures g.committed == [] || exists c :: c in g.commits && g.committed == CommitLog(g, c)
  {
    forall c | c in g.commits ensures CommitOk(servers, g, c) && CommitLog(g, c) <= g.committed {
      CommitGrows(servers, h, g, i, c);
    }
    if g.committed != [] {
      var c :| c in h.commits && h.committed == CommitLog(h, c);
      CommitGrows(servers, h, g, i, c);
    }
  }

  lemma WinElectionOk(servers: set<Id>, h: History, i: Id, n: Node, g: History)
    requires i in servers && n.currentTerm >= 1 && IsQuorum(servers, n.votes) && CandidateOk(servers, h, i, n)
    requires n.currentTerm !in h.logs && LogOk(h, n.log, n.currentTerm)
    requires g == RecordElection(h, n.currentTerm, i, n.log, n.votes) && Grows(h, g, i)
    ensures ElectionOk(servers, g, n.currentTerm)
  {
    LogOkGrows(h, g, i, n.log, n.currentTerm);
    forall x: nat | x < |n.log| ensures n.log[x].term < n.currentTerm {
      assert EntryOk(h, n.log, x);
    }
    forall v | v in n.votes ensures VotedFor(g, n.currentTerm, v, i) {
      assert VotedFor(h, n.currentTerm, v, i);
    }
  }

  lemma WinVotersOk(s: State, i: Id, g: History)
    requires Inv(s) && i in s.nodes && s.nodes[i].role == Candidate && IsQuorum(s.servers, s.nodes[i].votes)
    requires s.nodes[i].currentTerm !in s.h.elections
    requires g == RecordElection(s.h, s.nodes[i].currentTerm, i, s.nodes[i].log, s.nodes[i].votes)
    requires Grows(s.h, g, i)
    ensures forall t | t in g.elections :: VotersOk(g, t)
  {
    hide AppendMsgsOk, VoteMsgsOk, NodesOk, WinnersOk, BallotsOk, BallotNodesOk, Committed, LogOk, CommitOk, ElectionOk,
         Kept, Grows;
    var h, n := s.h, s.nodes[i];
    var u := n.currentTerm;
    forall t | t in h.elections ensures VotersOk(g, t) {
      if i in h.elections[t].quorum {
        QuorumReached(s, t, i);
      }
      VotersGrow(h, g, i, t);
    }
    forall v, a, k: nat | v in n.votes && a in g.acks && a.node == v && a.term < u && k <= a.index
                          && OwnEntry(g, a.term, k)
      ensures Kept(g, a.term, k, n.log, u - 1)
    {
      assert AckOk(h, a) && OwnEntry(h, a.term, k);
      VoteCarriesAcks(s, i, v, a, k);
      KeptGrows(h, g, i, a.term, k, n.log, u - 1, u - 1);
    }
    forall v | v in n.votes ensures VoterKept(g, u, v) {
    }
  }

  lemma WinKeeps(s: State, s': State, i: Id)
    requires Inv(s) && WinStep(s, s', i)
    ensures Inv(s')
  {
    hide AppendMsgsOk, VoteMsgsOk, WinnersOk, BallotsOk, BallotNodesOk, Committed, ElectionOk, VotersOk, LogOk, CommitOk,
         Kept, Grows, HistoryOk, CandidateOk;
    var n, n' := s.nodes[i], s'.nodes[i];
    assert NodeOk(s.servers, s.h, i, n);
    HistoryAcksOk(s.servers, s.h);
    FirstWinner(s, i);
    WinHistoryOk(s, i, s'.h);
    WinnerNodeOk(s.servers, s.h, s'.h, i, n, n');
    Assemble(s, s', i);
  }

  lemma WinnerNodeOk(servers: set<Id>, h: History, g: History, i: Id, n: Node, n': Node)
    requires NodeOk(servers, h, i, n) && n.role == Candidate && i in servers
    requires forall a | a in h.acks :: AckOk(h, a)
    requires g == RecordElection(h, n.currentTerm, i, n.log, n.votes) && Grows(h, g, i)
    requires n' == BecomeLeader(n, servers - {i})
    ensures NodeOk(servers, g, i, n')
  {
    hide Lost;
    LogOkGrows(h, g, i, n.log, n.currentTerm);
    CommittedGrows(h, g, i, n.log, n.commitIndex, n.currentTerm, n.currentTerm);
    forall a, k: nat | a in g.acks && a.node == i && k <= a.index
      ensures a.term <= n.currentTerm && Kept(g, a.term, k, n.log, n.currentTerm)
    {
      if a in h.acks {
        assert AckOk(h, a);
        KeptGrows(h, g, i, a.term, k, n.log, n.currentTerm, n.currentTerm);
      }
    }
  }

  // ----- appending to the leader's log ---------------------------------------------------------------

  lemma AppendKeeps(s: State, s': State, i: Id, data: Bytes)
    requires Inv(s) && AppendStep(s, s', i, data)
    ensures Inv(s')
  {
    hide AppendMsgsOk, WinnersOk, BallotsOk, BallotNodesOk, Committed, ElectionOk, VotersOk, LogOk, CommitOk, Kept;
    var n, n' := s.nodes[i], s'.nodes[i];
    assert NodeOk(s.servers, s.h, i, n);
    AppendHistoryOk(s, i, n', s'.h);
    LeaderNodeOk(s.servers, s.h, s'.h, i, n, n');
    Assemble(s, s', i);
  }

  lemma AppendHistoryOk(s: State, i: Id, n': Node, g: History)
    requires Inv(s) && i in s.nodes && s.nodes[i].role == Leader
    requires n'.currentTerm == s.nodes[i].currentTerm && |n'.log| == |s.nodes[i].log| + 1
    requires s.nodes[i].log <= n'.log && n'.log[|s.nodes[i].log|].term == n'.currentTerm
    requires g == RecordLeaderLog(s.h, n'.currentTerm, i, n'.log)
    ensures Grows(s.h, g, i) && HistoryOk(s.servers, g)
  {
    hide AppendMsgsOk, VoteMsgsOk, AcksKept, BallotsOk, BallotNodesOk, WinnersOk, Committed, ElectionOk, VotersOk, LogOk,
         CommitOk, Kept, Grows;
    var h, n := s.h, s.nodes[i];
    assert NodeOk(s.servers, h, i, n);
    LeaderLogGrows(h, g, i, n.currentTerm, n'.log);
    forall t | t in g.elections ensures ElectionOk(s.servers, g, t) && VotersOk(g, t) {
      if t == n.currentTerm {
        LongerElectionOk(s.servers, h, g, i, t);
      } else {
        ElectionGrows(s.servers, h, g, i, t);
      }
      if i in h.elections[t].quorum {
        QuorumReached(s, t, i);
      }
      VotersGrow(h, g, i, t);
    }
    forall a | a in g.acks ensures AckOk(g, a) {
      assert a in h.acks ==> AckOk(h, a);
    }
    CommitsGrow(s.servers, h, g, i);
  }

  lemma LeaderLogGrows(h: History, g: History, i: Id, t: nat, log: seq<Entry>)
    requires t in h.logs && h.logs[t] <= log && t in h.elections && h.elections[t].leader == i
    requires g == RecordLeaderLog(h, t, i, log)
    ensures Grows(h, g, i)
  {
  }

  lemma LongerElectionOk(servers: set<Id>, h: History, g: History, i: Id, t: nat)
    requires Grows(h, g, i) && t in h.elections && ElectionOk(servers, h, t)
    requires t in g.logs && |g.logs[t]| == |h.logs[t]| + 1 && g.logs[t][|h.logs[t]|].term == t
    ensures ElectionOk(servers, g, t)
  {
    var a, b := h.logs[t], g.logs[t];
    LogOkGrows(h, g, i, a, t);
    forall x: nat | x < |b| ensures b[x].term <= t && EntryOk(g, b, x) {
      if x < |a| {
        assert EntryOk(g, a, x);
        assert b[..x + 1] == a[..x + 1];
      }
    }
    forall v | v in g.elections[t].quorum ensures VotedFor(g, t, v, g.elections[t].leader) {
      assert VotedFor(h, t, v, h.elections[t].leader);
    }
  }

  lemma LeaderNodeOk(servers: set<Id>, h: History, g: History, i: Id, n: Node, n': Node)
    requires NodeOk(servers, h, i, n) && n.role == Leader
    requires n.currentTerm in g.elections && ElectionOk(servers, g, n.currentTerm)
    requires forall a | a in h.acks :: AckOk(h, a)
    requires n' == n.(log := n'.log) && n.log <= n'.log
    requires g == RecordLeaderLog(h, n.currentTerm, i, n'.log) && Grows(h, g, i)
    ensures NodeOk(servers, g, i, n')
  {
    hide LogOk, Committed, Kept, Grows;
    CommittedGrows(h, g, i, n.log, n.commitIndex, n.currentTerm, n.currentTerm);
    CommittedExtends(g, n.log, n'.log, n.commitIndex, n.currentTerm);
    LeaderAcksKept(h, g, i, n, n');
    forall p | p in n.peers ensures PeerOk(g, n.currentTerm, n'.log, p, n.peers[p]) {
      assert PeerOk(h, n.currentTerm, n.log, p, n.peers[p]);
    }
  }

  lemma LeaderAcksKept(h: History, g: History, i: Id, n: Node, n': Node)
    requires AcksKept(h, i, n.log, n.currentTerm) && n.log <= n'.log
    requires forall a | a in h.acks :: AckOk(h, a)
    requires g == RecordLeaderLog(h, n.currentTerm, i, n'.log) && Grows(h, g, i)
    ensures AcksKept(g, i, n'.log, n.currentTerm)
  {
    hide Lost;
    forall a, k: nat | a in g.acks && a.node == i && k <= a.index
      ensures a.term <= n.currentTerm && Kept(g, a.term, k, n'.log, n.currentTerm)
    {
      if a in h.acks {
        assert AckOk(h, a);
        KeptGrows(h, g, i, a.term, k, n.log, n.currentTerm, n.currentTerm);
        assert n.log == n'.log[..|n.log|];
      }
    }
  }
}
