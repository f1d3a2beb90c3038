/** The inductive invariant of the cluster, and what follows from it in a single state.

    The invariant is built from parts that look at one server, one message or one term at a time,
    always against the recorded history, so that a step only has to re-establish the parts it
    touches.  Two ideas carry it.  Every log is described against the logs of the leaders: a prefix
    that ends in an entry of term t is a prefix of `logs[t]` (`LogOk`).  And an acknowledged prefix
    is either still held, or some later leader was elected without it (`Kept`); a quorum
    acknowledgement rules the second case out (`LeaderCompleteness`). */
module RaftInvariant {
  import opened Raft
  import opened Cluster

  // ----- logs --------------------------------------------------------------------------------

  predicate EntryOk(h: History, log: seq<Entry>, x: nat)
    requires x < |log|
  {
    log[x].term in h.logs && Agree(log, h.logs[log[x].term], x + 1)
  }

  ghost predicate LogOk(h: History, log: seq<Entry>, bound: nat) {
    forall x: nat | x < |log| :: log[x].term <= bound && EntryOk(h, log, x)
  }

  /** Some leader elected after term `t`, up to term `upTo`, started without the first `k` entries
      of the leader of `t`. */
  ghost predicate Lost(h: History, t: nat, k: nat, upTo: nat) {
    exists u :: u in h.elections && t < u <= upTo && !(t in h.logs && Agree(h.logs[t], h.elections[u].base, k))
  }

  ghost predicate Kept(h: History, t: nat, k: nat, log: seq<Entry>, upTo: nat) {
    (t in h.logs && Agree(h.logs[t], log, k)) || Lost(h, t, k, upTo)
  }

  // ----- terms -------------------------------------------------------------------------------

  predicate VotedFor(h: History, t: nat, v: Id, leader: Id) {
    v == leader || (VoteKey(t, v) in h.ballots && h.ballots[VoteKey(t, v)].candidate == leader)
  }

  ghost predicate ElectionOk(servers: set<Id>, h: History, t: nat)
    requires t in h.elections
  {
    var e := h.elections[t];
    && t >= 1 && t in h.logs
    && e.leader in servers && IsQuorum(servers, e.quorum)
    && (forall v | v in e.quorum :: VotedFor(h, t, v, e.leader))
    && e.base <= h.logs[t]
    && (forall x: nat | x < |e.base| :: e.base[x].term < t)
    && (forall x: nat | |e.base| <= x < |h.logs[t]| :: h.logs[t][x].term == t)
    && LogOk(h, h.logs[t], t)
  }

  ghost predicate AckOk(h: History, a: Ack) {
    a.term in h.elections && a.term in h.logs && a.index <= |h.logs[a.term]|
  }

  /** The `k`-th entry of the leader of `t` was created in term `t`. */
  predicate OwnEntry(h: History, t: nat, k: nat) {
    t in h.logs && 1 <= k <= |h.logs[t]| && h.logs[t][k - 1].term == t
  }

  /** What `v` acknowledged before term `t` is in the log the leader of `t` started with, unless an
      earlier leader had already lost it. */
  ghost predicate VoterKept(h: History, t: nat, v: Id)
    requires t in h.elections
  {
    forall a, k: nat | a in h.acks && a.node == v && a.term < t && k <= a.index && OwnEntry(h, a.term, k) ::
      Kept(h, a.term, k, h.elections[t].base, t - 1)
  }

  ghost predicate VotersOk(h: History, t: nat)
    requires t in h.elections
  {
    forall v | v in h.elections[t].quorum :: VoterKept(h, t, v)
  }

  ghost predicate Held(h: History, v: Id, t: nat, k: nat) {
    exists a :: a in h.acks && a.node == v && a.term == t && a.index >= k
  }

  ghost predicate CommitOk(servers: set<Id>, h: History, c: Commit) {
    && c.term in h.elections && OwnEntry(h, c.term, c.index)
    && MeetsQuorums(servers, c.quorum)
    && (forall v | v in c.quorum :: Held(h, v, c.term, c.index))
  }

  /** The entries of a commit. */
  function CommitLog(h: History, c: Commit): seq<Entry> {
    if c.term in h.logs && c.index <= |h.logs[c.term]| then h.logs[c.term][..c.index] else []
  }

  /** The first `k` entries of `log` were committed in a term up to `upTo`. */
  ghost predicate Committed(h: History, log: seq<Entry>, k: nat, upTo: nat) {
    k == 0 || exists c :: c in h.commits && c.term <= upTo && k <= c.index && Agree(CommitLog(h, c), log, k)
  }

  ghost predicate HistoryOk(servers: set<Id>, h: History) {
    && h.elections.Keys == h.logs.Keys
    && (forall t | t in h.elections :: ElectionOk(servers, h, t))
    && (forall t | t in h.elections :: VotersOk(h, t))
    && (forall a | a in h.acks :: AckOk(h, a))
    && (forall c | c in h.commits :: CommitOk(servers, h, c))
    && (forall c | c in h.commits :: CommitLog(h, c) <= h.committed)
    && (h.committed == [] || exists c :: c in h.commits && h.committed == CommitLog(h, c))
  }

  // ----- servers -----------------------------------------------------------------------------

  ghost predicate AcksKept(h: History, i: Id, log: seq<Entry>, term: nat) {
    forall a | a in h.acks && a.node == i :: a.term <= term && forall k: nat | k <= a.index :: Kept(h, a.term, k, log, term)
  }

  predicate PeerOk(h: History, term: nat, log: seq<Entry>, p: Id, peer: Peer) {
    1 <= peer.nextIndex <= |log| + 1 && (peer.matchIndex == 0 || Ack(p, term, peer.matchIndex) in h.acks)
  }

  ghost predicate LeaderOk(servers: set<Id>, h: History, i: Id, n: Node) {
    && n.currentTerm in h.elections && n.currentTerm in h.logs && h.elections[n.currentTerm].leader == i
    && n.log == h.logs[n.currentTerm]
    && Ack(i, n.currentTerm, |n.log|) in h.acks
    && n.peers.Keys == servers - {i}
    && (forall p | p in n.peers :: PeerOk(h, n.currentTerm, n.log, p, n.peers[p]))
  }

  ghost predicate CandidateOk(servers: set<Id>, h: History, i: Id, n: Node) {
    n.votes <= servers && forall v | v in n.votes :: VotedFor(h, n.currentTerm, v, i)
  }

  ghost predicate NodeOk(servers: set<Id>, h: History, i: Id, n: Node) {
    && (n.role != Follower ==> n.votedFor == i && n.currentTerm >= 1)
    && (n.role == Leader ==> LeaderOk(servers, h, i, n))
    && (n.role == Candidate ==> CandidateOk(servers, h, i, n))
    && LogOk(h, n.log, n.currentTerm)
    && AcksKept(h, i, n.log, n.currentTerm)
    && n.lastApplied <= n.commitIndex <= |n.log|
    && n.applied == n.log[..n.lastApplied]
    && Committed(h, n.log, n.commitIndex, n.currentTerm)
  }

  /** The leader of a past or present term does not stand for election in it again. */
  predicate WinnerOk(t: nat, leader: Id, n: Node) {
    n.currentTerm > t || (n.currentTerm == t && n.votedFor == leader && n.role != Candidate)
  }

  /** A vote for another server binds its voter for the rest of the term. */
  predicate BallotVoterOk(t: nat, b: Ballot, n: Node) {
    n.currentTerm > t || (n.currentTerm == t && n.votedFor == b.candidate && n.role == Follower)
  }

  predicate BallotCandidateOk(t: nat, b: Ballot, n: Node) {
    && n.currentTerm >= t
    && (n.currentTerm == t && n.role == Candidate ==>
          UpToDate(LastTerm(n.log), |n.log|, LastTerm(b.log), |b.log|))
  }

  ghost predicate BallotOk(h: History, key: VoteKey)
    requires key in h.ballots
  {
    && h.ballots[key].candidate != key.voter
    && (key.term in h.elections ==> h.elections[key.term].leader != key.voter)
    && LogOk(h, h.ballots[key].log, key.term)
    && (forall a, k: nat | a in h.acks && a.node == key.voter && a.term < key.term && k <= a.index ::
          Kept(h, a.term, k, h.ballots[key].log, key.term))
  }

  // ----- messages ----------------------------------------------------------------------------

  predicate VoteReqOk(req: VoteReq, n: Node) {
    && req.term <= n.currentTerm
    && (req.term == n.currentTerm && n.role == Candidate ==>
          req.lastIndex == |n.log| && req.lastTerm == LastTerm(n.log))
  }

  predicate VoteRespOk(h: History, resp: VoteResp) {
    resp.granted ==> VotedFor(h, resp.req.term, resp.voter, resp.req.candidate)
  }

  /** The sender led the term of the request. */
  predicate SenderOk(h: History, req: AppendReq) {
    && req.term in h.elections && req.term in h.logs
    && h.elections[req.term].leader == req.leader && req.to != req.leader
  }

  ghost predicate LiveReq(h: History, req: AppendReq) {
    && SenderOk(h, req)
    && req.prevIndex + |req.entries| <= |h.logs[req.term]|
    && h.logs[req.term][req.prevIndex..req.prevIndex + |req.entries|] == req.entries
    && (req.prevIndex > 0 ==> h.logs[req.term][req.prevIndex - 1].term == req.prevTerm)
    && req.leaderCommit <= req.prevIndex + |req.entries|
    && Committed(h, h.logs[req.term], req.leaderCommit, req.term)
  }

  ghost predicate AppendReqOk(h: History, req: AppendReq) {
    LiveReq(h, req) || (SenderOk(h, req) && DeadReq(req))
  }

  /** A rejection of the request's own term names an index the leader can go back to, and a
      conflicting term, if any, whose leader's log reaches past it. */
  ghost predicate RejectionOk(h: History, resp: AppendResp) {
    && 1 <= resp.conflictIndex <= resp.req.prevIndex
    && (resp.conflictTerm > 0 ==>
          && resp.conflictTerm != resp.req.prevTerm && resp.conflictTerm in h.logs
          && resp.req.prevIndex <= |h.logs[resp.conflictTerm]|
          && h.logs[resp.conflictTerm][resp.req.prevIndex - 1].term == resp.conflictTerm)
  }

  ghost predicate AppendRespOk(h: History, resp: AppendResp) {
    && AppendReqOk(h, resp.req)
    && (resp.success ==> Ack(resp.req.to, resp.req.term, resp.req.prevIndex + |resp.req.entries|) in h.acks)
    && (!resp.success && resp.term == resp.req.term ==> RejectionOk(h, resp))
    && resp.term >= resp.req.term
  }

  // ----- the whole ---------------------------------------------------------------------------

  ghost predicate NodesOk(s: State) {
    forall i | i in s.nodes :: NodeOk(s.servers, s.h, i, s.nodes[i])
  }

  ghost predicate WinnersOk(s: State) {
    forall t | t in s.h.elections ::
      s.h.elections[t].leader in s.nodes && WinnerOk(t, s.h.elections[t].leader, s.nodes[s.h.elections[t].leader])
  }

  ghost predicate BallotsOk(s: State) {
    forall key | key in s.h.ballots :: BallotOk(s.h, key)
  }

  ghost predicate BallotNodesOk(s: State) {
    forall key | key in s.h.ballots ::
      && key.voter in s.nodes && BallotVoterOk(key.term, s.h.ballots[key], s.nodes[key.voter])
      && s.h.ballots[key].candidate in s.nodes
      && BallotCandidateOk(key.term, s.h.ballots[key], s.nodes[s.h.ballots[key].candidate])
  }

  ghost predicate VoteMsgsOk(s: State) {
    && (forall m | m in s.voteReqs :: m.candidate in s.nodes && VoteReqOk(m, s.nodes[m.candidate]))
    && (forall m | m in s.voteResps :: m.voter in s.servers && VoteRespOk(s.h, m))
  }

  ghost predicate AppendMsgsOk(s: State) {
    && (forall m | m in s.appendReqs :: AppendReqOk(s.h, m))
    && (forall m | m in s.appendResps :: AppendRespOk(s.h, m))
  }

  ghost predicate Inv(s: State) {
    && s.nodes.Keys == s.servers && NOBODY !in s.servers
    && HistoryOk(s.servers, s.h)
    && NodesOk(s) && WinnersOk(s) && BallotsOk(s) && BallotNodesOk(s)
    && VoteMsgsOk(s) && AppendMsgsOk(s)
  }

  lemma InitInv(s: State)
    requires Init(s)
    ensures Inv(s)
  {
  }

  // ----- quorums -----------------------------------------------------------------------------

  lemma QuorumsMeet(servers: set<Id>, p: set<Id>, q: set<Id>) returns (v: Id)
    requires IsQuorum(servers, p) && MeetsQuorums(servers, q)
    ensures v in p && v in q
  {
    if p * q == {} {
      assert |p + q| == |p| + |q|;
      SubsetSize(p + q, servers);
      assert false;
    }
    v :| v in p * q;
  }

  lemma {:induction false} SubsetSize(a: set<Id>, b: set<Id>)
    requires a <= b
    ensures |a| <= |b|
  {
    if a != {} {
      var x :| x in a;
      SubsetSize(a - {x}, b - {x});
    }
  }

  // ----- what the invariant means in one state -------------------------------------------------

  /** A prefix acknowledged by a quorum, and ending in an entry of its own term, is in the log of
      every leader elected later. */
  lemma {:induction false} LeaderCompleteness(servers: set<Id>, h: History, c: Commit, t: nat)
    requires HistoryOk(servers, h) && CommitOk(servers, h, c)
    requires t in h.elections && t > c.term
    ensures Agree(h.logs[c.term], h.elections[t].base, c.index)
    ensures Agree(CommitLog(h, c), h.logs[t], c.index)
    decreases t
  {
    assert ElectionOk(servers, h, t) && VotersOk(h, t);
    var v := QuorumsMeet(servers, h.elections[t].quorum, c.quorum);
    assert VoterKept(h, t, v) && Held(h, v, c.term, c.index);
    assert Kept(h, c.term, c.index, h.elections[t].base, t - 1);
    if !Agree(h.logs[c.term], h.elections[t].base, c.index) {
      var u :| u in h.elections && c.term < u <= t - 1 && !Agree(h.logs[c.term], h.elections[u].base, c.index);
      LeaderCompleteness(servers, h, c, u);
    }
  }

  /** Two logs with an entry of the same index and term are the same up to that entry. */
  lemma LogsMatch(h: History, a: seq<Entry>, b: seq<Entry>, ta: nat, tb: nat, x: nat)
    requires LogOk(h, a, ta) && LogOk(h, b, tb)
    requires x < |a| && x < |b| && a[x].term == b[x].term
    ensures Agree(a, b, x + 1)
  {
    assert EntryOk(h, a, x) && EntryOk(h, b, x);
  }

  /** Terms never decrease along a log. */
  lemma TermsAscend(servers: set<Id>, h: History, log: seq<Entry>, bound: nat, x: nat, y: nat)
    requires HistoryOk(servers, h) && LogOk(h, log, bound)
    requires x <= y < |log|
    ensures log[x].term <= log[y].term
  {
    var t := log[y].term;
    assert EntryOk(h, log, y);
    assert ElectionOk(servers, h, t);
    assert log[..y + 1][x] == h.logs[t][..y + 1][x];
  }

  /** Any two commits agree on what both cover. */
  lemma CommitsAgree(servers: set<Id>, h: History, c: Commit, d: Commit)
    requires HistoryOk(servers, h) && CommitOk(servers, h, c) && CommitOk(servers, h, d)
    ensures CommitLog(h, c) <= CommitLog(h, d) || CommitLog(h, d) <= CommitLog(h, c)
  {
    hide ElectionOk, VotersOk;
    if c.term < d.term {
      LeaderCompleteness(servers, h, c, d.term);
    } else if d.term < c.term {
      LeaderCompleteness(servers, h, d, c.term);
    }
  }
}
