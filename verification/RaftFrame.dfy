/** What a step leaves alone: the parts of the invariant that survive when the history grows. */
module RaftFrame {
  import opened Raft
  import opened Cluster
  import opened RaftInvariant

  /** `g` is `h` after one step of server `i`: nothing recorded is lost, and only the log of a term
      led by `i` grows, only acknowledgements of `i` are new. */
  ghost predicate Grows(h: History, g: History, i: Id) {
    && (forall t | t in h.elections :: t in g.elections && g.elections[t] == h.elections[t])
    && (forall t | t in h.logs :: t in g.logs && h.logs[t] <= g.logs[t])
    && (forall t | t in h.elections && h.elections[t].leader != i && t in h.logs :: g.logs[t] == h.logs[t])
    && (forall key | key in h.ballots :: key in g.ballots && g.ballots[key] == h.ballots[key])
    && h.acks <= g.acks && h.commits <= g.commits
    && (forall a | a in g.acks && a !in h.acks :: a.node == i)
  }

  lemma LogOkGrows(h: History, g: History, i: Id, log: seq<Entry>, bound: nat)
    requires Grows(h, g, i) && LogOk(h, log, bound)
    ensures LogOk(g, log, bound)
  {
    forall x: nat | x < |log|
      ensures log[x].term <= bound && EntryOk(g, log, x)
    {
      assert EntryOk(h, log, x);
    }
  }

  lemma LogOkWeaken(h: History, log: seq<Entry>, bound: nat, bound': nat)
    requires LogOk(h, log, bound) && bound <= bound'
    ensures LogOk(h, log, bound')
  {
    assert forall x: nat | x < |log| :: EntryOk(h, log, x);
  }

  lemma LostGrows(h: History, g: History, i: Id, t: nat, k: nat, upTo: nat, upTo': nat)
    requires Grows(h, g, i) && Lost(h, t, k, upTo) && upTo <= upTo'
    requires t in h.logs && k <= |h.logs[t]|
    ensures Lost(g, t, k, upTo')
  {
    var u :| u in h.elections && t < u <= upTo && !Agree(h.logs[t], h.elections[u].base, k);
    assert !Agree(g.logs[t], g.elections[u].base, k);
  }

  lemma KeptGrows(h: History, g: History, i: Id, t: nat, k: nat, log: seq<Entry>, upTo: nat, upTo': nat)
    requires Grows(h, g, i) && Kept(h, t, k, log, upTo) && upTo <= upTo'
    requires t in h.logs && k <= |h.logs[t]|
    ensures Kept(g, t, k, log, upTo')
  {
    if !Agree(h.logs[t], log, k) {
      LostGrows(h, g, i, t, k, upTo, upTo');
    }
  }

  lemma CommittedGrows(h: History, g: History, i: Id, log: seq<Entry>, k: nat, upTo: nat, upTo': nat)
    requires Grows(h, g, i) && Committed(h, log, k, upTo) && upTo <= upTo'
    ensures Committed(g, log, k, upTo')
  {
    if k != 0 {
      var c :| c in h.commits && c.term <= upTo && k <= c.index && Agree(CommitLog(h, c), log, k);
      assert Agree(CommitLog(g, c), log, k);
    }
  }

  /** A longer log still holds what was committed. */
  lemma CommittedExtends(h: History, log: seq<Entry>, log': seq<Entry>, k: nat, upTo: nat)
    requires Committed(h, log, k, upTo) && log <= log'
    ensures Committed(h, log', k, upTo)
  {
    if k != 0 {
      var c :| c in h.commits && c.term <= upTo && k <= c.index && Agree(CommitLog(h, c), log, k);
      assert Agree(CommitLog(h, c), log', k);
    }
  }

  lemma AcksKeptGrow(h: History, g: History, i: Id, j: Id, log: seq<Entry>, term: nat)
    requires Grows(h, g, i) && i != j && AcksKept(h, j, log, term)
    requires forall a | a in h.acks :: AckOk(h, a)
    ensures AcksKept(g, j, log, term)
  {
    forall a, k: nat | a in g.acks && a.node == j && k <= a.index
      ensures a.term <= term && Kept(g, a.term, k, log, term)
    {
      assert AckOk(h, a);
      KeptGrows(h, g, i, a.term, k, log, term, term);
    }
  }

  lemma NodeGrows(servers: set<Id>, h: History, g: History, i: Id, j: Id, n: Node)
    requires Grows(h, g, i) && i != j && NodeOk(servers, h, j, n)
    requires forall a | a in h.acks :: AckOk(h, a)
    ensures NodeOk(servers, g, j, n)
  {
    LogOkGrows(h, g, i, n.log, n.currentTerm);
    AcksKeptGrow(h, g, i, j, n.log, n.currentTerm);
    CommittedGrows(h, g, i, n.log, n.commitIndex, n.currentTerm, n.currentTerm);
    if n.role == Candidate {
      assert forall v | v in n.votes :: VotedFor(h, n.currentTerm, v, j);
    }
  }

  lemma AppendReqGrows(h: History, g: History, i: Id, req: AppendReq)
    requires Grows(h, g, i) && AppendReqOk(h, req)
    ensures AppendReqOk(g, req)
  {
    if LiveReq(h, req) {
      var a, b := h.logs[req.term], g.logs[req.term];
      assert a == b[..|a|];
      CommittedGrows(h, g, i, a, req.leaderCommit, req.term, req.term);
      CommittedExtends(g, a, b, req.leaderCommit, req.term);
    }
  }

  lemma AppendMsgsGrow(h: History, g: History, i: Id, reqs: set<AppendReq>, resps: set<AppendResp>)
    requires Grows(h, g, i)
    requires forall m | m in reqs :: AppendReqOk(h, m)
    requires forall m | m in resps :: AppendRespOk(h, m)
    ensures forall m | m in reqs :: AppendReqOk(g, m)
    ensures forall m | m in resps :: AppendRespOk(g, m)
  {
    forall m | m in reqs ensures AppendReqOk(g, m) {
      AppendReqGrows(h, g, i, m);
    }
    forall m | m in resps ensures AppendRespOk(g, m) {
      assert AppendRespOk(h, m);
      AppendReqGrows(h, g, i, m.req);
    }
  }

  /** A ballot keeps what it promised as long as its voter acknowledges nothing of an earlier term. */
  lemma BallotGrows(h: History, g: History, i: Id, key: VoteKey)
    requires Grows(h, g, i) && key in h.ballots && BallotOk(h, key)
    requires forall a | a in h.acks :: AckOk(h, a)
    requires forall a | a in g.acks && a !in h.acks && a.node == key.voter :: a.term >= key.term
    requires key.term in g.elections && key.term !in h.elections ==> g.elections[key.term].leader != key.voter
    ensures BallotOk(g, key)
  {
    LogOkGrows(h, g, i, h.ballots[key].log, key.term);
    forall a, k: nat | a in g.acks && a.node == key.voter && a.term < key.term && k <= a.index
      ensures Kept(g, a.term, k, g.ballots[key].log, key.term)
    {
      assert AckOk(h, a);
      KeptGrows(h, g, i, a.term, k, h.ballots[key].log, key.term, key.term);
    }
  }

  lemma VotersGrow(h: History, g: History, i: Id, t: nat)
    requires Grows(h, g, i) && t in h.elections && VotersOk(h, t)
    requires forall a | a in h.acks :: AckOk(h, a)
    requires forall a | a in g.acks && a !in h.acks && i in h.elections[t].quorum :: a.term >= t
    ensures VotersOk(g, t)
  {
    forall v | v in g.elections[t].quorum
      ensures VoterKept(g, t, v)
    {
      forall a, k: nat | a in g.acks && a.node == v && a.term < t && k <= a.index && OwnEntry(g, a.term, k)
        ensures Kept(g, a.term, k, g.elections[t].base, t - 1)
      {
        assert VoterKept(h, t, v) && AckOk(h, a);
        assert OwnEntry(h, a.term, k);
        KeptGrows(h, g, i, a.term, k, h.elections[t].base, t - 1, t - 1);
      }
    }
  }

  /** An election whose log did not change stays in order. */
  lemma ElectionGrows(servers: set<Id>, h: History, g: History, i: Id, t: nat)
    requires Grows(h, g, i) && t in h.elections && ElectionOk(servers, h, t)
    requires g.logs[t] == h.logs[t]
    ensures ElectionOk(servers, g, t)
  {
    LogOkGrows(h, g, i, h.logs[t], t);
    forall v | v in g.elections[t].quorum ensures VotedFor(g, t, v, g.elections[t].leader) {
      assert VotedFor(h, t, v, h.elections[t].leader);
    }
  }

  lemma CommitGrows(servers: set<Id>, h: History, g: History, i: Id, c: Commit)
    requires Grows(h, g, i) && CommitOk(servers, h, c)
    ensures CommitOk(servers, g, c) && CommitLog(g, c) == CommitLog(h, c)
  {
    forall v | v in c.quorum ensures Held(g, v, c.term, c.index) {
      assert Held(h, v, c.term, c.index);
    }
  }

  /** The members of a winning quorum have reached the term they voted in. */
  lemma QuorumReached(s: State, t: nat, v: Id)
    requires Inv(s) && t in s.h.elections && v in s.h.elections[t].quorum
    ensures v in s.nodes && s.nodes[v].currentTerm >= t
  {
    assert ElectionOk(s.servers, s.h, t);
    assert VotedFor(s.h, t, v, s.h.elections[t].leader);
    assert v != s.h.elections[t].leader ==> VoteKey(t, v) in s.h.ballots;
  }

  lemma HistoryAcksOk(servers: set<Id>, h: History)
    requires HistoryOk(servers, h)
    ensures forall a | a in h.acks :: AckOk(h, a)
  {
  }
}
