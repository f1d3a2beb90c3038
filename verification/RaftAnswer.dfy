/** A leader's handling of the answers: bookkeeping, commitment by counting, and backing up. */
module RaftAnswer {
  import opened Raft
  import opened Cluster
  import opened RaftInvariant
  import opened RaftFrame
  import opened RaftSteps

  /** After an answer the peers are still in order: an accepted request is backed by an
      acknowledgement, and a rejection leaves a usable `nextIndex`. */
  lemma RecordedPeersOk(servers: set<Id>, h: History, i: Id, n: Node, resp: AppendResp)
    requires LeaderOk(servers, h, i, n) && AppendRespOk(h, resp)
    requires resp.req.term == n.currentTerm == resp.term && resp.req.to in n.peers && !DeadReq(resp.req)
    ensures LeaderOk(servers, h, i, RecordAppend(n, resp))
  {
    hide Committed;
    var n' := RecordAppend(n, resp);
    assert n'.peers.Keys == n.peers.Keys;
    forall p | p in n'.peers ensures PeerOk(h, n.currentTerm, n.log, p, n'.peers[p]) {
      assert PeerOk(h, n.currentTerm, n.log, p, n.peers[p]);
    }
  }

  /** The servers counted for index `k` form a quorum that holds it. */
  lemma CountedQuorum(servers: set<Id>, h: History, i: Id, n: Node, k: nat)
    requires LeaderOk(servers, h, i, n) && i in servers && IsMajorityIndex(n, i, k)
    requires 1 <= k <= |n.log| && n.log[k - 1].term == n.currentTerm
    ensures CommitOk(servers, h, Commit(n.currentTerm, k, Holders(n, i, k)))
  {
    var q := Holders(n, i, k);
    assert |servers - {i}| == |servers| - 1;
    assert |n.peers.Keys| == |n.peers|;
    forall v | v in q ensures Held(h, v, n.currentTerm, k) {
      if v == i {
        assert Ack(i, n.currentTerm, |n.log|) in h.acks;
      } else {
        assert PeerOk(h, n.currentTerm, n.log, v, n.peers[v]);
        assert Ack(v, n.currentTerm, n.peers[v].matchIndex) in h.acks;
      }
    }
  }

  lemma CommitHistoryOk(servers: set<Id>, h: History, i: Id, c: Commit, g: History)
    requires HistoryOk(servers, h) && CommitOk(servers, h, c)
    requires g == h.(commits := h.commits + {c}, committed := Longer(h.committed, CommitLog(h, c)))
    ensures Grows(h, g, i) && HistoryOk(servers, g)
  {
    hide ElectionOk, VotersOk, CommitOk, CommitLog;
    assert Grows(h, g, i);
    forall t | t in g.elections ensures ElectionOk(servers, g, t) && VotersOk(g, t) {
      ElectionGrows(servers, h, g, i, t);
      VotersGrow(h, g, i, t);
    }
    forall d | d in g.commits ensures CommitOk(servers, g, d) && CommitLog(g, d) == CommitLog(h, d) {
      CommitGrows(servers, h, g, i, d);
    }
    forall a | a in g.acks ensures AckOk(g, a) {
      assert AckOk(h, a);
    }
    if h.committed != [] {
      var d :| d in h.commits && h.committed == CommitLog(h, d);
      CommitsAgree(servers, h, c, d);
      assert d in g.commits;
    }
    assert c in g.commits;
    assert CommitLog(h, c) <= g.committed && h.committed <= g.committed;
  }

  lemma AnswerKeeps(s: State, s': State, i: Id, resp: AppendResp, k: nat)
    requires Inv(s) && AnswerStep(s, s', i, resp, k)
    ensures Inv(s')
  {
    hide WinnersOk, BallotsOk, BallotNodesOk, VoteMsgsOk, LogOk, AcksKept, Committed, HistoryOk, Grows, Holders,
         IsMajorityIndex, BackUp;
    var n, n' := s.nodes[i], s'.nodes[i];
    assert NodeOk(s.servers, s.h, i, n);
    assert AppendRespOk(s.h, resp);
    GrowsSelf(s.h, i);
    if resp.term > n.currentTerm {
      LaterTermOk(s, i, n');
    } else {
      RecordedPeersOk(s.servers, s.h, i, n, resp);
      if n'.commitIndex != n.commitIndex {
        CommittingNodeOk(s.servers, s.h, s'.h, i, RecordAppend(n, resp), k);
      }
    }
    Assemble(s, s', i);
  }

  lemma CommittingNodeOk(servers: set<Id>, h: History, g: History, i: Id, n: Node, k: nat)
    requires HistoryOk(servers, h) && NodeOk(servers, h, i, n) && n.role == Leader && i in servers
    requires IsMajorityIndex(n, i, k) && n.commitIndex < k <= |n.log| && n.log[k - 1].term == n.currentTerm
    requires g == RecordCommit(h, n.currentTerm, k, n.log, Holders(n, i, k))
    ensures Grows(h, g, i) && HistoryOk(servers, g) && NodeOk(servers, g, i, n.(commitIndex := k))
  {
    hide HistoryOk, LogOk, AcksKept, IsMajorityIndex, Holders, Grows, CommitOk;
    CountedQuorum(servers, h, i, n, k);
    CommittedByNode(servers, h, g, i, n, k, Holders(n, i, k));
  }

  /** A server that commits a prefix of its own current term's leader, held by servers no quorum avoids. */
  lemma CommittedByNode(servers: set<Id>, h: History, g: History, i: Id, n: Node, k: nat, q: set<Id>)
    requires HistoryOk(servers, h) && NodeOk(servers, h, i, n) && CommitOk(servers, h, Commit(n.currentTerm, k, q))
    requires n.commitIndex < k <= |n.log| && n.currentTerm in h.logs && Agree(n.log, h.logs[n.currentTerm], k)
    requires g == RecordCommit(h, n.currentTerm, k, n.log, q)
    ensures Grows(h, g, i) && HistoryOk(servers, g) && NodeOk(servers, g, i, n.(commitIndex := k))
  {
    hide HistoryOk, LogOk, AcksKept, Grows, CommitOk;
    var c := Commit(n.currentTerm, k, q);
    assert CommitLog(h, c) == n.log[..k];
    CommitHistoryOk(servers, h, i, c, g);
    HistoryAcksOk(servers, h);
    SameNodeOk(servers, h, g, i, n);
    assert c in g.commits && Agree(CommitLog(g, c), n.log, k);
  }
}
