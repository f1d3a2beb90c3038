/** Answers that arrive after the leadership they belong to has ended.

    The handler of such an answer may make a server commit that does not lead.  It is safe in every
    cluster whose leaders store their no-op before their first request: what a former leader counts is
    then committed by its own term, so that the log it follows now has no entry of a later term there
    (`NoOpFirstBlocks`).  It is safe in every cluster of at most four servers: the follower and the leader
    it follows hold what it commits, and no quorum avoids both (`FollowerCommitOk`). */
module RaftLate {
  import opened Raft
  import opened Cluster
  import opened RaftInvariant
  import opened RaftFrame
  import opened RaftSteps
  import opened RaftAnswer

  // ----- what is known of former leaders -----------------------------------------------------------------

  /** The peers of a server belong to a leadership of its own, which has ended unless it still leads. */
  ghost predicate LedOk(servers: set<Id>, h: History, i: Id, n: Node) {
    && (n.role == Leader ==> n.ledTerm == n.currentTerm)
    && (n.ledTerm > 0 ==>
          && n.peers.Keys == servers - {i}
          && n.ledTerm in h.elections && h.elections[n.ledTerm].leader == i
          && (forall p | p in n.peers :: MatchAcked(h, n.ledTerm, p, n.peers[p]))
          && (n.role != Leader ==> n.ledTerm < n.currentTerm && !LeaderOf(h, n.currentTerm, i)))
  }

  predicate MatchAcked(h: History, t: nat, p: Id, peer: Peer) {
    peer.matchIndex == 0 || Ack(p, t, peer.matchIndex) in h.acks
  }

  predicate LeaderOf(h: History, t: nat, i: Id) {
    t in h.elections && h.elections[t].leader == i
  }

  /** A server has acknowledged its entries of the current term. */
  ghost predicate OwnTermAcked(h: History, i: Id, n: Node) {
    forall x: nat | x < |n.log| && n.log[x].term == n.currentTerm :: Held(h, i, n.currentTerm, x + 1)
  }

  ghost predicate LeadersAcked(h: History) {
    forall t | t in h.elections :: t in h.logs && Ack(h.elections[t].leader, t, |h.logs[t]|) in h.acks
  }

  /** What a request carries ends in an entry of its own term. */
  predicate OwnReq(h: History, req: AppendReq) {
    req.entries == [] || OwnEntry(h, req.term, req.prevIndex + |req.entries|)
  }

  predicate OwnMatch(h: History, t: nat, peer: Peer) {
    peer.matchIndex == 0 || OwnEntry(h, t, peer.matchIndex)
  }

  ghost predicate OwnMatches(h: History, n: Node) {
    forall p | p in n.peers :: OwnMatch(h, n.ledTerm, n.peers[p])
  }

  ghost predicate PastOk(s: State) {
    && LeadersAcked(s.h)
    && (forall i | i in s.nodes :: LedOk(s.servers, s.h, i, s.nodes[i]) && OwnTermAcked(s.h, i, s.nodes[i]))
  }

  ghost predicate NoOpsOk(s: State) {
    && (forall req | req in s.appendReqs :: OwnReq(s.h, req))
    && (forall resp | resp in s.appendResps :: OwnReq(s.h, resp.req))
    && (forall i | i in s.nodes :: OwnMatches(s.h, s.nodes[i]))
  }

  /** The invariant of a safe cluster. */
  ghost predicate Safe(s: State) {
    Inv(s) && PastOk(s) && SafeCluster(s.policy, s.servers) && (s.policy == NoOpFirst ==> NoOpsOk(s))
  }

  lemma InitSafe(s: State)
    requires Init(s) && SafeCluster(s.policy, s.servers)
    ensures Safe(s)
  {
    hide Inv;
    InitInv(s);
  }

  // ----- the no-op first -----------------------------------------------------------------------------------

  /** A server with the least match index of `q`. */
  lemma {:induction false} LeastMatch(peers: map<Id, Peer>, q: set<Id>) returns (p: Id)
    requires q <= peers.Keys && q != {}
    ensures p in q && forall v | v in q :: peers[p].matchIndex <= peers[v].matchIndex
    decreases |q|
  {
    p :| p in q;
    if q != {p} {
      var r := LeastMatch(peers, q - {p});
      if peers[r].matchIndex < peers[p].matchIndex {
        p := r;
      }
    }
  }

  /** Of what a former leader counts, some server other than itself is a part. */
  lemma OthersCount(servers: set<Id>, i: Id, n: Node, k: nat)
    requires i in servers && |servers| >= 2 && n.peers.Keys == servers - {i} && IsMajorityIndex(n, i, k)
    ensures var others := Holders(n, i, k) - {i};
            && others <= n.peers.Keys && others != {} && MeetsQuorums(servers, others + {i})
            && (forall v | v in others :: n.peers[v].matchIndex >= k)
  {
    var q := Holders(n, i, k);
    var others := q - {i};
    assert |servers - {i}| == |servers| - 1 && |n.peers.Keys| == |n.peers|;
    assert |others + {i}| == |others| + 1;
    SubsetSize(q, others + {i});
  }

  /** What a former leader counts as held by a majority was committed by its own term. */
  lemma CountedByFormerLeader(servers: set<Id>, h: History, i: Id, n: Node, k: nat) returns (c: Commit)
    requires HistoryOk(servers, h) && LedOk(servers, h, i, n) && OwnMatches(h, n) && LeadersAcked(h)
    requires i in servers && |servers| >= 2 && n.ledTerm > 0 && k >= 1 && IsMajorityIndex(n, i, k)
    ensures c.term == n.ledTerm && c.index >= k && CommitOk(servers, h, c)
  {
    hide HistoryOk, OwnEntry, IsMajorityIndex, Holders, MeetsQuorums;
    OthersCount(servers, i, n, k);
    var others := Holders(n, i, k) - {i};
    var p := LeastMatch(n.peers, others);
    var m := n.peers[p].matchIndex;
    assert OwnMatch(h, n.ledTerm, n.peers[p]);
    c := Commit(n.ledTerm, m, others + {i});
    OwnWithin(h, n.ledTerm, m);
    forall v | v in c.quorum ensures Held(h, v, n.ledTerm, m) {
      if v == i {
        assert Ack(i, n.ledTerm, |h.logs[n.ledTerm]|) in h.acks;
      } else {
        assert MatchAcked(h, n.ledTerm, v, n.peers[v]);
        assert Ack(v, n.ledTerm, n.peers[v].matchIndex) in h.acks;
      }
    }
  }

  lemma OwnWithin(h: History, t: nat, k: nat)
    requires OwnEntry(h, t, k)
    ensures t in h.logs && 1 <= k <= |h.logs[t]|
  {
  }

  /** The log of a term has no entry of that term where an earlier term had committed. */
  lemma CommittedBefore(servers: set<Id>, h: History, c: Commit, log: seq<Entry>, t: nat, k: nat)
    requires HistoryOk(servers, h) && CommitOk(servers, h, c) && c.term < t && 1 <= k <= c.index && k <= |log|
    requires LogOk(h, log, t)
    ensures log[k - 1].term != t
  {
    hide VotersOk, CommitOk, AckOk, CommitLog;
    assert EntryOk(h, log, k - 1);
    if t in h.elections {
      assert ElectionOk(servers, h, t);
      LeaderCompleteness(servers, h, c, t);
      var base := h.elections[t].base;
      assert h.logs[t][k - 1] == base[k - 1] && base[k - 1].term < t;
    }
  }

  /** Condition A: with the no-op first, a former leader's count never moves its commit index. */
  lemma NoOpFirstBlocks(servers: set<Id>, h: History, i: Id, n: Node, k: nat)
    requires HistoryOk(servers, h) && LedOk(servers, h, i, n) && OwnMatches(h, n) && LeadersAcked(h)
    requires LogOk(h, n.log, n.currentTerm) && i in servers && n.role != Leader && n.ledTerm > 0
    requires IsMajorityIndex(n, i, k)
    ensures AdvanceCommit(n, k) == n
  {
    hide HistoryOk, OwnMatches, LeadersAcked, IsMajorityIndex, LogOk;
    if n.commitIndex < k <= |n.log| && n.log[k - 1].term == n.currentTerm {
      OtherLeader(servers, h, i, n, k);
      var c := CountedByFormerLeader(servers, h, i, n, k);
      CommittedBefore(servers, h, c, n.log, n.currentTerm, k);
    }
  }

  /** An entry of the current term comes from a leader other than this former one. */
  lemma OtherLeader(servers: set<Id>, h: History, i: Id, n: Node, k: nat)
    requires HistoryOk(servers, h) && LedOk(servers, h, i, n) && LogOk(h, n.log, n.currentTerm)
    requires i in servers && n.role != Leader && n.ledTerm > 0
    requires 1 <= k <= |n.log| && n.log[k - 1].term == n.currentTerm
    ensures var t := n.currentTerm;
            && t in h.elections && t in h.logs && Agree(n.log, h.logs[t], k) && OwnEntry(h, t, k)
            && h.elections[t].leader in servers && h.elections[t].leader != i && |servers| >= 2
  {
    hide VotersOk, CommitOk, AckOk, CommitLog;
    var t := n.currentTerm;
    assert EntryOk(h, n.log, k - 1);
    assert ElectionOk(servers, h, t);
    assert n.log[k - 1] == n.log[..k][k - 1] == h.logs[t][..k][k - 1];
    var l := h.elections[t].leader;
    SubsetSize({i, l}, servers);
  }

  // ----- few servers ------------------------------------------------------------------------------------------

  /** Condition B: among at most four servers, a follower and its leader meet every quorum. */
  lemma FollowerCommitOk(servers: set<Id>, h: History, i: Id, n: Node, k: nat)
    requires HistoryOk(servers, h) && LedOk(servers, h, i, n) && LeadersAcked(h) && OwnTermAcked(h, i, n)
    requires LogOk(h, n.log, n.currentTerm) && i in servers && n.role != Leader && n.ledTerm > 0
    requires 1 <= k <= |n.log| && n.log[k - 1].term == n.currentTerm && |servers| <= 4
    ensures n.currentTerm in h.logs && Agree(n.log, h.logs[n.currentTerm], k)
    ensures CommitOk(servers, h, Commit(n.currentTerm, k, LateHolders(h, n, i, k)))
  {
    hide HistoryOk, LogOk, OwnEntry;
    OtherLeader(servers, h, i, n, k);
    var t := n.currentTerm;
    var l := h.elections[t].leader;
    OwnWithin(h, t, k);
    assert LateHolders(h, n, i, k) == {i, l} && |{i, l}| == 2;
    assert Held(h, i, t, k - 1 + 1);
    assert Ack(l, t, |h.logs[t]|) in h.acks;
  }

  // ----- the late answer -----------------------------------------------------------------------------------------

  /** The records of a former leader after an answer to that leadership. */
  lemma RecordedLate(servers: set<Id>, h: History, i: Id, n: Node, resp: AppendResp)
    requires LedOk(servers, h, i, n) && AppendRespOk(h, resp) && n.ledTerm == resp.req.term && n.ledTerm > 0
    requires resp.req.to in n.peers
    ensures LedOk(servers, h, i, RecordAppend(n, resp))
    ensures OwnMatches(h, n) && OwnReq(h, resp.req) ==> OwnMatches(h, RecordAppend(n, resp))
  {
    hide AppendReqOk, RejectionOk, OwnEntry, BackUp;
    var n' := RecordAppend(n, resp);
    assert n'.peers.Keys == n.peers.Keys;
    forall p | p in n'.peers ensures MatchAcked(h, n.ledTerm, p, n'.peers[p]) {
      assert MatchAcked(h, n.ledTerm, p, n.peers[p]);
    }
    if OwnMatches(h, n) && OwnReq(h, resp.req) {
      forall p | p in n'.peers ensures OwnMatch(h, n.ledTerm, n'.peers[p]) {
        assert OwnMatch(h, n.ledTerm, n.peers[p]);
      }
    }
  }

  /** What a server that does not lead commits on a late answer is held by it and its leader, and there are
      few servers. */
  lemma LateCommitOk(s: State, s': State, i: Id, resp: AppendResp, k: nat, recorded: bool)
    requires Safe(s) && LateAnswerStep(s, s', i, resp, k, recorded)
    requires s.nodes[i].role != Leader && s'.nodes[i].commitIndex != s.nodes[i].commitIndex
    ensures resp.term <= s.nodes[i].currentTerm && resp.success
    ensures var n := s.nodes[i];
            && n.commitIndex < k <= |n.log| && n.currentTerm in s.h.logs && Agree(n.log, s.h.logs[n.currentTerm], k)
            && CommitOk(s.servers, s.h, Commit(n.currentTerm, k, LateHolders(s.h, n, i, k)))
  {
    hide HistoryOk, WinnersOk, BallotsOk, BallotNodesOk, VoteMsgsOk, LogOk, AcksKept, Committed, IsMajorityIndex, BackUp,
         LedOk, OwnMatches, LeadersAcked, OwnTermAcked, CommitOk, LateHolders, OwnReq;
    var h, n := s.h, s.nodes[i];
    assert NodeOk(s.servers, h, i, n) && AppendRespOk(h, resp);
    if s.policy == NoOpFirst {
      if recorded {
        RecordedLate(s.servers, h, i, n, resp);
      }
      SameLed(s.servers, h, i, n, if recorded then RecordAppend(n, resp) else n);
      NoOpFirstBlocks(s.servers, h, i, if recorded then RecordAppend(n, resp) else n, k);
    } else {
      FollowerCommitOk(s.servers, h, i, n, k);
    }
  }

  lemma SameLed(servers: set<Id>, h: History, i: Id, n: Node, m: Node)
    requires m == n.(peers := m.peers)
    ensures m.role == n.role && m.log == n.log && m.currentTerm == n.currentTerm && m.ledTerm == n.ledTerm
  {
  }

  /** A late answer keeps the invariant in a safe cluster, whatever it does. */
  lemma LateAnswerKeeps(s: State, s': State, i: Id, resp: AppendResp, k: nat, recorded: bool)
    requires Safe(s) && LateAnswerStep(s, s', i, resp, k, recorded)
    ensures Inv(s')
  {
    hide WinnersOk, BallotsOk, BallotNodesOk, VoteMsgsOk, AppendMsgsOk, LogOk, AcksKept, Committed, HistoryOk, Grows,
         Holders, IsMajorityIndex, BackUp, PastOk, NoOpsOk, LateHolders, CommitOk;
    var n, n' := s.nodes[i], s'.nodes[i];
    assert NodeOk(s.servers, s.h, i, n);
    GrowsSelf(s.h, i);
    if resp.term > n.currentTerm {
      LaterTermOk(s, i, n');
    } else if n'.commitIndex != n.commitIndex {
      if n.role == Leader {
        LeaderHolders(s.h, n, i, k);
        CommittingNodeOk(s.servers, s.h, s'.h, i, n, k);
      } else {
        LateCommitOk(s, s', i, resp, k, recorded);
        CommittedByNode(s.servers, s.h, s'.h, i, n, k, LateHolders(s.h, n, i, k));
        PeersOfFollower(s.servers, s'.h, i, n.(commitIndex := k), n');
      }
    }
    Assemble(s, s', i);
  }

  lemma LeaderHolders(h: History, n: Node, i: Id, k: nat)
    requires n.role == Leader
    ensures LateHolders(h, n, i, k) == Holders(n, i, k)
  {
  }

  /** The peers of a server that does not lead do not matter to the invariant. */
  lemma PeersOfFollower(servers: set<Id>, h: History, i: Id, n: Node, n': Node)
    requires NodeOk(servers, h, i, n) && n.role != Leader && n' == n.(peers := n'.peers)
    ensures NodeOk(servers, h, i, n')
  {
  }
}
