/** What the messages of the protocol achieve: a request accepted brings its follower up to its sender, a
    rejection is answered and taken back to the right place, an answer counts, a vote is given where it is
    due, and no later term goes unheard. */
module RaftProgress {
  import opened Raft
  import opened Cluster
  import opened RaftInvariant
  import opened RaftReceive
  import opened RaftSafety

  // ----- requests ----------------------------------------------------------------------------------------

  /** A request built from a usable record ends with the last entry of its sender's log. */
  lemma CarriesTheSuffix(n: Node, i: Id, p: Id)
    requires p in n.peers && 1 <= n.peers[p].nextIndex <= |n.log| + 1
    ensures var req := BuildAppend(n, i, p);
            && req.prevIndex + |req.entries| == |n.log| && req.term == n.currentTerm
            && n.log[..req.prevIndex] + req.entries == n.log
  {
  }

  /** Over runs: if server i leads with commit index c and sends to p by its current record, then p, when it
      accepts that request, holds all of the log i had, and has committed at least its first c entries. */
  lemma AcceptedCatchesUp(r: Run, j: nat, k: nat, i: Id, p: Id)
    requires IsRun(r) && j < k < |r.steps| && k + 1 < |r.states| && r.steps[j] == Send(i, p)
    requires i in r.states[j].nodes && p in r.states[j].nodes[i].peers && r.states[j].nodes[i].peers[p].nextIndex >= 1
    requires r.steps[k] == Receive(p, BuildAppend(r.states[j].nodes[i], i, p))
    requires p in r.states[k].nodes && Accepts(r.states[k].nodes[p], BuildAppend(r.states[j].nodes[i], i, p))
    ensures p in r.states[k + 1].nodes
    ensures var n, m := r.states[j].nodes[i], r.states[k + 1].nodes[p];
            && n.commitIndex <= |n.log| && Agree(m.log, n.log, |n.log|) && m.commitIndex >= n.commitIndex
  {
    hide IsRun, Inv, Next, Accepts, HandleAppendReq, BuildAppend;
    var s, t := r.states[j], r.states[k];
    var n, req := s.nodes[i], BuildAppend(s.nodes[i], i, p);
    RunStep(r, j);
    RunStep(r, k);
    RunInv(r, j);
    RunInv(r, k);
    RunRemembers(r, j, k);
    SentByLeader(s, r.states[j + 1], i, p);
    ReceivedAt(t, r.states[k + 1], p, req);
    CarriesTheSuffix(n, i, p);
    var big := t.h.logs[n.currentTerm];
    assert n.log == big[..|n.log|];
    CommitsAsSent(n, i, p, t.nodes[p]);
  }

  lemma SentByLeader(s: State, s': State, i: Id, p: Id)
    requires Inv(s) && Next(s, s', Send(i, p))
    ensures i in s.nodes && p in s.nodes[i].peers && s.nodes[i].peers[p].nextIndex <= |s.nodes[i].log| + 1
    ensures s.nodes[i].currentTerm in s.h.logs && s.nodes[i].log == s.h.logs[s.nodes[i].currentTerm]
    ensures s.nodes[i].commitIndex <= |s.nodes[i].log|
  {
    hide HistoryOk, WinnersOk, BallotsOk, BallotNodesOk, VoteMsgsOk, AppendMsgsOk, LogOk, AcksKept, Committed;
    LeaderInOrder(s, i);
    assert PeerOk(s.h, s.nodes[i].currentTerm, s.nodes[i].log, p, s.nodes[i].peers[p]);
  }

  /** The receiver's log agrees with that of the term's leader to the end of the request. */
  lemma ReceivedAt(s: State, s': State, p: Id, req: AppendReq)
    requires Inv(s) && Next(s, s', Receive(p, req)) && p in s.nodes && Accepts(s.nodes[p], req)
    ensures p in s'.nodes && s'.nodes[p] == HandleAppendReq(s.nodes[p], req)
    ensures req.term in s.h.logs && Agree(s'.nodes[p].log, s.h.logs[req.term], req.prevIndex + |req.entries|)
  {
    hide HistoryOk, WinnersOk, BallotsOk, BallotNodesOk, VoteMsgsOk, LogOk, AcksKept, LeaderOk, CandidateOk, Committed,
         MergeLog;
    LeaderInOrder(s, p);
    assert AppendReqOk(s.h, req);
    var big, log := ReceivedLog(s.servers, s.h, s.nodes[p], req);
  }

  /** The commit index of the sender reaches the receiver. */
  lemma CommitsAsSent(n: Node, i: Id, p: Id, m: Node)
    requires p in n.peers && n.peers[p].nextIndex >= 1 && Accepts(m, BuildAppend(n, i, p))
    ensures var m' := HandleAppendReq(m, BuildAppend(n, i, p));
            n.commitIndex <= |m'.log| ==> m'.commitIndex >= n.commitIndex
  {
    hide MergeLog;
  }

  // ----- rejections ------------------------------------------------------------------------------------------

  /** What a rejection tells: where a short log ends, or the conflicting term and where its run begins. */
  lemma ConflictReported(m: Node, req: AppendReq)
    requires req.term >= m.currentTerm && !Consistent(m.log, req)
    ensures var resp, x := AppendAnswer(m, req), req.prevIndex;
            && !resp.success && resp.term == req.term && resp.req == req
            && (|m.log| < x ==> resp.conflictTerm == 0 && resp.conflictIndex == |m.log| + 1)
            && (x <= |m.log| ==>
                  && resp.conflictTerm == m.log[x - 1].term && 1 <= resp.conflictIndex <= x
                  && (forall y: nat | resp.conflictIndex - 1 <= y < x :: m.log[y].term == resp.conflictTerm)
                  && (resp.conflictIndex > 1 ==> m.log[resp.conflictIndex - 2].term != resp.conflictTerm))
  {
    hide FirstOfTerm;
    if req.prevIndex <= |m.log| {
      var first := FirstOfTerm(m.log, req.prevIndex);
    }
  }

  predicate HasTerm(log: seq<Entry>, t: nat) {
    exists y: nat :: y < |log| && log[y].term == t
  }

  /** Where a rejected leader continues: behind its last entry of the conflicting term, if the answer names
      one and it has one; otherwise at the conflict index, but at least at 1. */
  lemma BackUpValue(log: seq<Entry>, resp: AppendResp)
    ensures var next, t := BackUp(log, resp), resp.conflictTerm;
            if t > 0 && HasTerm(log, t)
            then && 2 <= next <= |log| + 1 && log[next - 2].term == t
                 && (forall y: nat | next - 1 <= y < |log| :: log[y].term != t)
            else next == if resp.conflictIndex > 1 then resp.conflictIndex else 1
  {
    hide LastOfTerm;
    var t := resp.conflictTerm;
    var last := LastOfTerm(log, t, |log|);
    if HasTerm(log, t) {
      var y: nat :| y < |log| && log[y].term == t;
      assert !(last <= y);
    }
  }

  predicate Ascends(log: seq<Entry>) {
    forall x, y | 0 <= x <= y < |log| :: log[x].term <= log[y].term
  }

  /** Fast back-up is not too fast: it never goes back over what leader and follower share. */
  lemma BackUpKeepsShared(log: seq<Entry>, m: Node, req: AppendReq, k: nat)
    requires req.term >= m.currentTerm && !Consistent(m.log, req)
    requires 1 <= req.prevIndex <= |log| && log[req.prevIndex - 1].term == req.prevTerm
    requires Ascends(log) && Ascends(m.log) && (forall x | 0 <= x < |m.log| :: m.log[x].term >= 1)
    requires Agree(m.log, log, k)
    ensures BackUp(log, AppendAnswer(m, req)) >= k + 1
  {
    hide BackUp, AppendAnswer, Consistent;
    var x := req.prevIndex;
    var resp := AppendAnswer(m, req);
    ConflictReported(m, req);
    BackUpValue(log, resp);
    if k >= x {
      ConsistentWithin(log, m.log, req, k);
    } else if k > 0 {
      assert m.log[k - 1] == m.log[..k][k - 1] && log[k - 1] == log[..k][k - 1];
      if x <= |m.log| {
        var t := m.log[x - 1].term;
        assert m.log[k - 1].term <= t;
        SharedBelow(log, m.log, t, k);
      }
    }
  }

  /** A request that ends within what leader and follower share fits. */
  lemma ConsistentWithin(log: seq<Entry>, other: seq<Entry>, req: AppendReq, k: nat)
    requires Agree(other, log, k) && 1 <= req.prevIndex <= k && log[req.prevIndex - 1].term == req.prevTerm
    ensures Consistent(other, req)
  {
    assert other[req.prevIndex - 1] == other[..k][req.prevIndex - 1];
    assert log[req.prevIndex - 1] == log[..k][req.prevIndex - 1];
  }

  /** Entry k, shared by both, is not above the conflicting term; if it is of that term, the leader has one. */
  lemma SharedBelow(log: seq<Entry>, other: seq<Entry>, t: nat, k: nat)
    requires 1 <= k <= |log| && k <= |other| && log[k - 1] == other[k - 1] && log[k - 1].term <= t && Ascends(log)
    ensures forall y: nat | y < k - 1 && log[y].term == t :: log[k - 1].term == t
    ensures log[k - 1].term == t ==> HasTerm(log, t)
  {
  }

  /** The same in every run, whenever the answer is taken. */
  lemma BackUpKeepsSharedInRun(r: Run, k: nat, l: nat, i: Id, p: Id, req: AppendReq, x: nat)
    requires IsRun(r) && k <= l < |r.states| && req in r.states[k].appendReqs && req.to == p && !DeadReq(req)
    requires p in r.states[k].nodes && r.states[k].nodes[p].currentTerm <= req.term
    requires !Consistent(r.states[k].nodes[p].log, req)
    requires i in r.states[l].nodes && r.states[l].nodes[i].role == Leader && r.states[l].nodes[i].currentTerm == req.term
    requires Agree(r.states[k].nodes[p].log, r.states[l].nodes[i].log, x)
    ensures BackUp(r.states[l].nodes[i].log, AppendAnswer(r.states[k].nodes[p], req)) >= x + 1
  {
    hide IsRun, Inv, BackUp, AppendAnswer, Ascends;
    RunInv(r, k);
    RunInv(r, l);
    RunRemembers(r, k, l);
    var m, n := r.states[k].nodes[p], r.states[l].nodes[i];
    NodeAscends(r.states[k], p);
    NodeAscends(r.states[l], i);
    LeaderHasLog(r.states[l], i);
    LiveAt(r.states[k], req);
    var sent := r.states[k].h.logs[req.term];
    assert req.prevIndex > 0 ==> n.log[req.prevIndex - 1] == sent[req.prevIndex - 1];
    BackUpKeepsShared(n.log, m, req, x);
  }

  lemma NodeAscends(s: State, a: Id)
    requires Inv(s) && a in s.nodes
    ensures Ascends(s.nodes[a].log) && forall x | 0 <= x < |s.nodes[a].log| :: s.nodes[a].log[x].term >= 1
  {
    hide NodesOk, WinnersOk, BallotsOk, BallotNodesOk, VoteMsgsOk, AppendMsgsOk, VotersOk, CommitOk, AckOk, CommitLog;
    LeaderInOrder(s, a);
    var log := s.nodes[a].log;
    forall x: nat, y: nat | x <= y < |log| ensures log[x].term <= log[y].term {
      TermsAscendIn(s, a, x, y);
    }
    forall x: nat | x < |log| ensures log[x].term >= 1 {
      assert EntryOk(s.h, log, x);
      assert ElectionOk(s.servers, s.h, log[x].term);
    }
  }

  lemma LeaderHasLog(s: State, i: Id)
    requires Inv(s) && i in s.nodes && s.nodes[i].role == Leader
    ensures s.nodes[i].currentTerm in s.h.logs && s.nodes[i].log == s.h.logs[s.nodes[i].currentTerm]
  {
    hide HistoryOk, NodesOk, WinnersOk, BallotsOk, BallotNodesOk, VoteMsgsOk, AppendMsgsOk, LogOk, AcksKept, Committed;
    LeaderInOrder(s, i);
  }

  lemma LiveAt(s: State, req: AppendReq)
    requires Inv(s) && req in s.appendReqs && !DeadReq(req)
    ensures LiveReq(s.h, req)
  {
    hide HistoryOk, NodesOk, WinnersOk, BallotsOk, BallotNodesOk, VoteMsgsOk, LiveReq;
    assert AppendReqOk(s.h, req);
  }

  /** A follower whose log is merely behind needs one rejection: the next request fits. */
  lemma OneRejection(n: Node, i: Id, m: Node, p: Id, req: AppendReq)
    requires m.log <= n.log && req.term >= m.currentTerm && !Consistent(m.log, req)
    requires 1 <= req.prevIndex <= |n.log| && n.log[req.prevIndex - 1].term == req.prevTerm
    ensures var next := BackUp(n.log, AppendAnswer(m, req));
            next == |m.log| + 1 && Consistent(m.log, BuildAppendFrom(n, i, p, next))
  {
    hide BackUp, AppendAnswer;
    ConflictReported(m, req);
    BackUpValue(n.log, AppendAnswer(m, req));
    assert forall y | 0 <= y < |m.log| :: m.log[y] == n.log[y];
  }

  // ----- answers and votes ---------------------------------------------------------------------------------

  /** The answer tells whether the request was accepted. */
  lemma AnswerTells(m: Node, req: AppendReq)
    ensures var resp := AppendAnswer(m, req);
            && (resp.success <==> Accepts(m, req)) && resp.req == req
            && (req.term < m.currentTerm ==> !resp.success && resp.term == m.currentTerm)
  {
    hide Consistent, FirstOfTerm;
  }

  /** An accepted suffix counts: its receiver is among the holders of everything up to its end, the leader
      continues behind it, and no other record changes. */
  lemma AcceptedCounts(n: Node, me: Id, resp: AppendResp, x: nat)
    requires resp.success && resp.req.to in n.peers
    ensures resp.req.entries == [] ==> RecordAppend(n, resp) == n
    ensures resp.req.entries != [] ==>
            var n', last := RecordAppend(n, resp), resp.req.prevIndex + |resp.req.entries|;
            && (x <= last ==> resp.req.to in Holders(n', me, x))
            && resp.req.to in n'.peers && n'.peers[resp.req.to].nextIndex == last + 1
            && n'.peers.Keys == n.peers.Keys
            && (forall p | p in n.peers && p != resp.req.to :: n'.peers[p] == n.peers[p])
  {
  }

  /** Who gets a vote: a candidate of a term the voter has not passed, if the voter has voted for nobody else
      in it and its log ends in no later term and, in the same, is no longer. */
  lemma VoteIsDue(v: Node, i: Id, n: Node, me: Id)
    ensures var req := ElectionRequest(n, i);
            && VoteAnswer(v, me, req).granted == (
                 && n.currentTerm >= v.currentTerm
                 && (n.currentTerm > v.currentTerm || v.votedFor == NOBODY || v.votedFor == i)
                 && (LastTerm(v.log) < LastTerm(n.log) || (LastTerm(v.log) == LastTerm(n.log) && |v.log| <= |n.log|)))
            && (VoteAnswer(v, me, req).granted ==>
                  HandleVoteReq(v, req).votedFor == i && HandleVoteReq(v, req).currentTerm == n.currentTerm)
            && HandleVoteReq(v, req).log == v.log
  {
  }

  function Max(a: nat, b: nat): nat {
    if a < b then b else a
  }

  /** No later term goes unheard: whatever message brings it, its receiver enters it, and leads no more. */
  lemma LaterTermsAreHeard(n: Node, me: Id, vote: VoteReq, voted: VoteResp, req: AppendReq, resp: AppendResp, k: nat,
                           recorded: bool)
    requires recorded ==> resp.req.to in n.peers
    ensures Hears(n, HandleVoteReq(n, vote), vote.term) && Hears(n, CountVote(n, voted), voted.term)
    ensures Hears(n, HandleAppendReq(n, req), req.term) && Hears(n, HandleAppendResp(n, resp, k, recorded), resp.term)
    ensures req.term >= n.currentTerm ==> HandleAppendReq(n, req).role == Follower
    ensures VoteAnswer(n, me, vote).term == Max(n.currentTerm, vote.term)
    ensures AppendAnswer(n, req).term == Max(n.currentTerm, req.term)
  {
    hide MergeLog, Consistent, FirstOfTerm, BackUp, UpToDate;
  }

  predicate Hears(n: Node, n': Node, term: nat) {
    n'.currentTerm == Max(n.currentTerm, term) && (term > n.currentTerm ==> n'.role == Follower)
  }
}
