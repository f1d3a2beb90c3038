/** A follower's handling of AppendEntries keeps the invariant, and never cuts a committed entry. */
module RaftReceive {
  import opened Raft
  import opened Cluster
  import opened RaftInvariant
  import opened RaftFrame
  import opened RaftSteps

  /** Between logs of the cluster, equal terms at an index mean equal prefixes. */
  ghost predicate Matching(a: seq<Entry>, b: seq<Entry>) {
    forall x: nat | x < |a| && x < |b| && a[x].term == b[x].term :: Agree(a, b, x + 1)
  }

  lemma LogsMatching(h: History, a: seq<Entry>, b: seq<Entry>, ta: nat, tb: nat)
    requires LogOk(h, a, ta) && LogOk(h, b, tb)
    ensures Matching(a, b)
  {
    forall x: nat | x < |a| && x < |b| && a[x].term == b[x].term ensures Agree(a, b, x + 1) {
      LogsMatch(h, a, b, ta, tb, x);
    }
  }

  lemma AgreeTrans(a: seq<Entry>, b: seq<Entry>, c: seq<Entry>, k: nat, m: nat)
    requires Agree(a, b, k) && Agree(b, c, m) && k <= m
    ensures Agree(a, c, k)
  {
    assert b[..k] == b[..m][..k] == c[..m][..k] == c[..k];
  }

  /** Merging a slice of the leader's log `big` gives back the old log when it already holds the
      slice, and the leader's prefix otherwise; either way everything the two logs shared stays. */
  lemma {:induction false} MergeShape(log: seq<Entry>, big: seq<Entry>, prev: nat, m: nat)
    requires Matching(log, big) && prev <= m <= |big| && Agree(log, big, prev)
    ensures var r := MergeLog(log, prev, big[prev..m]);
            && (r == log || r == big[..m])
            && Agree(r, big, m)
            && (forall k: nat | Agree(log, big, k) :: Agree(log, r, k))
    decreases m - prev
  {
    var entries := big[prev..m];
    if prev == m {
    } else if prev == |log| {
      assert log + entries == big[..m];
    } else if log[prev].term != entries[0].term {
      assert log[..prev] + entries == big[..m];
      forall k: nat | Agree(log, big, k) ensures k <= prev {
      }
    } else {
      assert log[prev].term == big[prev].term;
      assert Agree(log, big, prev + 1);
      assert entries[1..] == big[prev + 1..m];
      MergeShape(log, big, prev + 1, m);
    }
  }

  /** Nobody accepts a request that points past its sender's log. */
  lemma AcceptedIsLive(servers: set<Id>, h: History, n: Node, req: AppendReq)
    requires HistoryOk(servers, h) && AppendReqOk(h, req) && LogOk(h, n.log, n.currentTerm) && Accepts(n, req)
    ensures LiveReq(h, req)
  {
    hide VotersOk, CommitOk, CommitLog, AckOk, LiveReq;
    if req.prevIndex > 0 {
      var t := n.log[req.prevIndex - 1].term;
      assert EntryOk(h, n.log, req.prevIndex - 1);
      assert ElectionOk(servers, h, t);
    }
  }

  /** The follower's new log, against the log of the leader that sent the request. */
  lemma ReceivedLog(servers: set<Id>, h: History, n: Node, req: AppendReq) returns (big: seq<Entry>, r: seq<Entry>)
    requires HistoryOk(servers, h) && AppendReqOk(h, req) && LogOk(h, n.log, n.currentTerm) && Accepts(n, req)
    ensures LiveReq(h, req) && big == h.logs[req.term] && req.prevIndex <= |n.log|
    ensures r == MergeLog(n.log, req.prevIndex, req.entries) && (r == n.log || |r| == req.prevIndex + |req.entries|)
    ensures Agree(r, big, req.prevIndex + |req.entries|)
    ensures forall k: nat | Agree(n.log, big, k) :: Agree(n.log, r, k)
    ensures LogOk(h, r, req.term)
  {
    hide HistoryOk, LogOk, Committed, Matching;
    AcceptedIsLive(servers, h, n, req);
    big := h.logs[req.term];
    r := MergeLog(n.log, req.prevIndex, req.entries);
    LeaderLogOk(servers, h, req.term);
    if req.prevIndex > 0 {
      LogsMatch(h, n.log, big, n.currentTerm, req.term, req.prevIndex - 1);
    }
    LogsMatching(h, n.log, big, n.currentTerm, req.term);
    MergeShape(n.log, big, req.prevIndex, req.prevIndex + |req.entries|);
    LogOkWeaken(h, n.log, n.currentTerm, req.term);
    LogOkPrefix(h, big, req.term, req.prevIndex + |req.entries|);
  }

  lemma LeaderLogOk(servers: set<Id>, h: History, t: nat)
    requires HistoryOk(servers, h) && t in h.elections
    ensures LogOk(h, h.logs[t], t)
  {
    assert ElectionOk(servers, h, t);
  }

  lemma LogOkPrefix(h: History, log: seq<Entry>, bound: nat, m: nat)
    requires LogOk(h, log, bound) && m <= |log|
    ensures LogOk(h, log[..m], bound)
  {
    forall x: nat | x < m ensures log[..m][x].term <= bound && EntryOk(h, log[..m], x) {
      assert EntryOk(h, log, x);
      assert log[..m][..x + 1] == log[..x + 1];
    }
  }

  /** What the follower acknowledged in an earlier term survives the merge, or the leader of the
      request had already lost it. */
  lemma ReceiveKeepsAck(servers: set<Id>, h: History, log: seq<Entry>, r: seq<Entry>, cur: nat, t: nat, a: Ack, k: nat)
    requires t in h.elections && ElectionOk(servers, h, t) && AckOk(h, a) && a.term <= cur <= t && k <= a.index
    requires Kept(h, a.term, k, log, cur)
    requires forall k: nat | Agree(log, h.logs[t], k) :: Agree(log, r, k)
    ensures Kept(h, a.term, k, r, t)
  {
    hide LogOk;
    if Lost(h, a.term, k, cur) {
      GrowsSelf(h, a.node);
      LostGrows(h, h, a.node, a.term, k, cur, t);
    } else if a.term < t && !Agree(h.logs[a.term], h.elections[t].base, k) {
      assert Lost(h, a.term, k, t);
    } else {
      assert Agree(log, h.logs[t], k);
    }
  }

  /** Everything a server has committed is in the log of every leader it may hear from. */
  lemma CommittedInLeader(servers: set<Id>, h: History, log: seq<Entry>, k: nat, cur: nat, t: nat)
    requires HistoryOk(servers, h) && Committed(h, log, k, cur) && k <= |log|
    requires t in h.elections && cur <= t
    ensures Agree(log, h.logs[t], k)
  {
    hide VotersOk, LogOk, ElectionOk, Held;
    if k != 0 {
      var c :| c in h.commits && c.term <= cur && k <= c.index && Agree(CommitLog(h, c), log, k);
      assert CommitOk(servers, h, c);
      if c.term < t {
        LeaderCompleteness(servers, h, c, t);
      } else {
        assert CommitLog(h, c) == h.logs[t][..c.index];
      }
      AgreeTrans(log, CommitLog(h, c), h.logs[t], k, c.index);
    }
  }

  // ----- the accepted request -----------------------------------------------------------------------

  lemma AckHistoryOk(s: State, i: Id, req: AppendReq, g: History)
    requires Inv(s) && i in s.nodes && LiveReq(s.h, req) && s.nodes[i].currentTerm <= req.term
    requires g == RecordAck(s.h, i, req)
    ensures Grows(s.h, g, i) && HistoryOk(s.servers, g)
  {
    hide AppendMsgsOk, VoteMsgsOk, NodesOk, WinnersOk, BallotsOk, BallotNodesOk, Committed, ElectionOk, VotersOk, LogOk,
         CommitOk, Kept;
    var h := s.h;
    assert Grows(h, g, i);
    forall t | t in g.elections ensures ElectionOk(s.servers, g, t) && VotersOk(g, t) {
      ElectionGrows(s.servers, h, g, i, t);
      if i in h.elections[t].quorum {
        QuorumReached(s, t, i);
      }
      VotersGrow(h, g, i, t);
    }
    forall a | a in g.acks ensures AckOk(g, a) {
      assert a in h.acks ==> AckOk(h, a);
    }
    CommitsGrow(s.servers, h, g, i);
  }

  lemma ReceiverAcksKept(servers: set<Id>, h: History, g: History, i: Id, n: Node, req: AppendReq, r: seq<Entry>)
    requires HistoryOk(servers, h) && LiveReq(h, req) && n.currentTerm <= req.term
    requires AcksKept(h, i, n.log, n.currentTerm)
    requires g == RecordAck(h, i, req) && Grows(h, g, i)
    requires Agree(r, h.logs[req.term], req.prevIndex + |req.entries|)
    requires forall k: nat | Agree(n.log, h.logs[req.term], k) :: Agree(n.log, r, k)
    ensures AcksKept(g, i, r, req.term)
  {
    hide VotersOk, CommitOk, LogOk, Committed, Lost;
    var t := req.term;
    assert ElectionOk(servers, h, t);
    forall a, k: nat | a in g.acks && a.node == i && k <= a.index
      ensures a.term <= t && Kept(g, a.term, k, r, t)
    {
      if a in h.acks {
        assert AckOk(h, a);
        ReceiveKeepsAck(servers, h, n.log, r, n.currentTerm, t, a, k);
        KeptGrows(h, g, i, a.term, k, r, t, t);
      } else {
        assert Agree(g.logs[t], r, k);
      }
    }
  }

  /** The new commit index: the follower's log agrees with the leader's up to it. */
  lemma ReceiverCommitted(servers: set<Id>, h: History, i: Id, n: Node, req: AppendReq, r: seq<Entry>)
    requires HistoryOk(servers, h) && LiveReq(h, req) && NodeOk(servers, h, i, n) && n.currentTerm <= req.term
    requires Agree(r, h.logs[req.term], req.prevIndex + |req.entries|)
    requires forall k: nat | Agree(n.log, h.logs[req.term], k) :: Agree(n.log, r, k)
    ensures Agree(n.log, r, n.commitIndex)
    ensures Committed(h, r, n.commitIndex, req.term)
    ensures req.leaderCommit <= |r| && Committed(h, r, req.leaderCommit, req.term)
  {
    hide HistoryOk, LogOk, AcksKept, LeaderOk, CandidateOk;
    var big := h.logs[req.term];
    CommittedInLeader(servers, h, n.log, n.commitIndex, n.currentTerm, req.term);
    if n.commitIndex != 0 {
      var c :| c in h.commits && c.term <= n.currentTerm && n.commitIndex <= c.index
               && Agree(CommitLog(h, c), n.log, n.commitIndex);
      AgreeTrans(CommitLog(h, c), n.log, r, n.commitIndex, n.commitIndex);
    }
    if req.leaderCommit != 0 {
      var c :| c in h.commits && c.term <= req.term && req.leaderCommit <= c.index
               && Agree(CommitLog(h, c), big, req.leaderCommit);
      AgreeTrans(CommitLog(h, c), big, r, req.leaderCommit, req.prevIndex + |req.entries|);
    }
  }

  lemma ReceiverNodeOk(servers: set<Id>, h: History, g: History, i: Id, n: Node, req: AppendReq)
    requires HistoryOk(servers, h) && AppendReqOk(h, req) && NodeOk(servers, h, i, n) && Accepts(n, req)
    requires g == RecordAck(h, i, req) && Grows(h, g, i)
    ensures NodeOk(servers, g, i, HandleAppendReq(n, req))
  {
    hide HistoryOk, LogOk, AcksKept, LeaderOk, CandidateOk, Committed, Grows, AppendReqOk;
    var big, r := ReceivedLog(servers, h, n, req);
    ReceiverAcksKept(servers, h, g, i, n, req, r);
    ReceiverCommitted(servers, h, i, n, req, r);
    var n' := HandleAppendReq(n, req);
    LogOkGrows(h, g, i, r, req.term);
    CommittedGrows(h, g, i, r, n'.commitIndex, req.term, req.term);
    assert n.applied == r[..n.lastApplied] by {
      assert n.log[..n.lastApplied] == n.log[..n.commitIndex][..n.lastApplied];
    }
  }

  lemma RejectionIsOk(h: History, i: Id, n: Node, req: AppendReq)
    requires LogOk(h, n.log, n.currentTerm) && AppendReqOk(h, req)
    requires req.term >= n.currentTerm && !Consistent(n.log, req)
    ensures RejectionOk(h, AppendAnswer(n, req))
  {
    if req.prevIndex <= |n.log| {
      assert EntryOk(h, n.log, req.prevIndex - 1);
    }
  }

  lemma ReceiveKeeps(s: State, s': State, i: Id, req: AppendReq)
    requires Inv(s) && ReceiveStep(s, s', i, req)
    ensures Inv(s')
  {
    hide WinnersOk, BallotsOk, BallotNodesOk, VoteMsgsOk, LogOk, AcksKept, Committed, HistoryOk, MergeLog, Grows;
    var n := s.nodes[i];
    assert NodeOk(s.servers, s.h, i, n);
    assert AppendReqOk(s.h, req);
    NotTheLeader(s, i, req);
    if Accepts(n, req) {
      AcceptedIsLive(s.servers, s.h, n, req);
      AckHistoryOk(s, i, req, s'.h);
      ReceiverNodeOk(s.servers, s.h, s'.h, i, n, req);
      AppendReqGrows(s.h, s'.h, i, req);
    } else {
      GrowsSelf(s.h, i);
      if req.term >= n.currentTerm {
        LaterTermOk(s, i, s'.nodes[i]);
        RejectionIsOk(s.h, i, n, req);
      }
    }
    Assemble(s, s', i);
  }

  /** A leader never hears another leader of its own term. */
  lemma NotTheLeader(s: State, i: Id, req: AppendReq)
    requires Inv(s) && i in s.nodes && AppendReqOk(s.h, req) && req.to == i
    ensures s.nodes[i].role == Leader ==> s.nodes[i].currentTerm != req.term
  {
    hide HistoryOk, WinnersOk, BallotsOk, BallotNodesOk, VoteMsgsOk, AppendMsgsOk, LogOk, AcksKept, Committed;
    assert NodeOk(s.servers, s.h, i, s.nodes[i]);
  }

  // ----- a crash while the request is being handled ---------------------------------------------------

  /** What is left of the log after the conflicting entries were deleted still holds all that the two
      logs share. */
  lemma CutLog(servers: set<Id>, h: History, n: Node, req: AppendReq, cut: nat)
    requires HistoryOk(servers, h) && AppendReqOk(h, req) && LogOk(h, n.log, n.currentTerm) && Accepts(n, req)
    requires req.prevIndex <= cut < req.prevIndex + |req.entries| && cut < |n.log|
    requires forall x | req.prevIndex <= x < cut :: n.log[x].term == req.entries[x - req.prevIndex].term
    requires n.log[cut].term != req.entries[cut - req.prevIndex].term
    ensures forall k: nat | Agree(n.log, h.logs[req.term], k) :: Agree(n.log, n.log[..cut], k)
    ensures LogOk(h, n.log[..cut], req.term)
  {
    hide HistoryOk, LogOk, Committed;
    AcceptedIsLive(servers, h, n, req);
    var big := h.logs[req.term];
    assert big[cut] == req.entries[cut - req.prevIndex];
    forall k: nat | Agree(n.log, big, k) ensures k <= cut {
    }
    LogOkWeaken(h, n.log, n.currentTerm, req.term);
    LogOkPrefix(h, n.log, req.term, cut);
  }

  lemma SentRequestOk(s: State, req: AppendReq)
    requires AppendMsgsOk(s) && req in s.appendReqs
    ensures AppendReqOk(s.h, req)
  {
  }

  lemma CommittedNothing(h: History, log: seq<Entry>, upTo: nat)
    ensures Committed(h, log, 0, upTo)
  {
  }

  lemma CrashCutKeeps(s: State, s': State, i: Id, req: AppendReq, cut: nat)
    requires Inv(s) && CrashInReceive(s, s', i, req, cut)
    ensures Inv(s')
  {
    hide WinnersOk, BallotsOk, BallotNodesOk, VoteMsgsOk, AppendMsgsOk, LogOk, LeaderOk, CandidateOk, Committed, ElectionOk,
         VotersOk, CommitOk, Kept;
    var h, n, n' := s.h, s.nodes[i], s'.nodes[i];
    SentRequestOk(s, req);
    assert NodeOk(s.servers, h, i, n);
    CutLog(s.servers, h, n, req, cut);
    NotTheLeader(s, i, req);
    forall a, k: nat | a in h.acks && a.node == i && k <= a.index
      ensures a.term <= req.term && Kept(h, a.term, k, n'.log, req.term)
    {
      assert AckOk(h, a) && ElectionOk(s.servers, h, req.term);
      assert Kept(h, a.term, k, n.log, n.currentTerm);
      ReceiveKeepsAck(s.servers, h, n.log, n'.log, n.currentTerm, req.term, a, k);
    }
    CommittedNothing(h, n'.log, req.term);
    GrowsSelf(h, i);
    Assemble(s, s', i);
  }
}
