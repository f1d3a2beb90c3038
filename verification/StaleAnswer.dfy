/** When the handling of late answers as the source writes it is safe, exactly.

    `replicateOnce` handles an answer to a leadership that has ended like any other, and starts to replicate
    before the no-op is stored.  In every cluster of five or more servers that is not safe: here is a run at
    whose end two servers have been handed different commands (`LateAnswersDiverge`).  In every cluster of at
    most four servers it is safe, and so it is in every cluster if the no-op comes first or the handler looks
    again whether it leads (RaftSafety.dfy).  `SafetyExactly` puts the two halves together. */
module StaleAnswers {
  import opened Raft
  import opened Cluster
  import opened RaftSafety

  // ----- paths: runs from any state --------------------------------------------------------------------

  predicate IsPath(p: Run): (b: bool)
    ensures b ==> p.states != []
  {
    && |p.states| == |p.steps| + 1
    && forall k | 0 <= k < |p.steps| :: Next(p.states[k], p.states[k + 1], p.steps[k])
  }

  /** `p'` continues `p` to a state with these servers, and no message is lost. */
  predicate Continues(p: Run, p': Run, nodes: map<Id, Node>) {
    && p.states != [] && IsPath(p') && p'.states[0] == p.states[0]
    && var s, s' := Last(p), Last(p');
    && s'.policy == s.policy && s'.servers == s.servers && s'.nodes == nodes
    && s.voteReqs <= s'.voteReqs && s.voteResps <= s'.voteResps
    && s.appendReqs <= s'.appendReqs && s.appendResps <= s'.appendResps
  }

  lemma Extend(p: Run, step: Step, s': State) returns (p': Run)
    requires IsPath(p) && Next(Last(p), s', step)
    ensures IsPath(p') && p'.states[0] == p.states[0] && Last(p') == s'
  {
    hide Next;
    p' := Run(p.states + [s'], p.steps + [step]);
  }

  lemma DoTimeout(p: Run, i: Id) returns (p': Run)
    requires IsPath(p) && i in Last(p).nodes && Last(p).nodes[i].role != Leader
    ensures Continues(p, p', Last(p).nodes[i := StartElection(Last(p).nodes[i], i)])
    ensures ElectionRequest(StartElection(Last(p).nodes[i], i), i) in Last(p').voteReqs
  {
    hide IsPath;
    var s := Last(p);
    var n := StartElection(s.nodes[i], i);
    p' := Extend(p, Timeout(i), s.(nodes := s.nodes[i := n], voteReqs := s.voteReqs + {ElectionRequest(n, i)}));
  }

  lemma DoVote(p: Run, i: Id, req: VoteReq) returns (p': Run)
    requires IsPath(p) && i in Last(p).nodes && req in Last(p).voteReqs && req.candidate != i
    ensures Continues(p, p', Last(p).nodes[i := HandleVoteReq(Last(p).nodes[i], req)])
    ensures VoteAnswer(Last(p).nodes[i], i, req) in Last(p').voteResps
  {
    hide IsPath, HandleVoteReq, Grants;
    var s := Last(p);
    var n := s.nodes[i];
    p' := Extend(p, Vote(i, req),
                 s.(nodes := s.nodes[i := HandleVoteReq(n, req)], voteResps := s.voteResps + {VoteAnswer(n, i, req)},
                    h := if Grants(n, req) then RecordBallot(s.h, i, req, n.log) else s.h));
  }

  lemma DoCount(p: Run, i: Id, resp: VoteResp) returns (p': Run)
    requires IsPath(p) && i in Last(p).nodes && resp in Last(p).voteResps && resp.req.candidate == i
    requires Last(p).nodes[i].role == Candidate && Last(p).nodes[i].currentTerm == resp.req.term
    ensures Continues(p, p', Last(p).nodes[i := CountVote(Last(p).nodes[i], resp)])
  {
    hide IsPath, CountVote;
    var s := Last(p);
    p' := Extend(p, Count(i, resp), s.(nodes := s.nodes[i := CountVote(s.nodes[i], resp)]));
  }

  lemma DoWin(p: Run, i: Id) returns (p': Run)
    requires IsPath(p) && i in Last(p).nodes && Last(p).nodes[i].role == Candidate
    requires IsQuorum(Last(p).servers, Last(p).nodes[i].votes)
    ensures Continues(p, p', Last(p).nodes[i := BecomeLeader(Last(p).nodes[i], Last(p).servers - {i})])
  {
    hide IsPath, BecomeLeader;
    var s := Last(p);
    var n := s.nodes[i];
    p' := Extend(p, Win(i), s.(nodes := s.nodes[i := BecomeLeader(n, s.servers - {i})],
                               h := RecordElection(s.h, n.currentTerm, i, n.log, n.votes)));
  }

  lemma DoAppend(p: Run, i: Id, data: Bytes) returns (p': Run)
    requires IsPath(p) && i in Last(p).nodes && Last(p).nodes[i].role == Leader
    ensures Continues(p, p', Last(p).nodes[i := AppendEntry(Last(p).nodes[i], data)])
  {
    hide IsPath;
    var s := Last(p);
    var n := AppendEntry(s.nodes[i], data);
    p' := Extend(p, Append(i, data),
                 s.(nodes := s.nodes[i := n], h := RecordLeaderLog(s.h, n.currentTerm, i, n.log)));
  }

  lemma DoApply(p: Run, i: Id) returns (p': Run)
    requires IsPath(p) && i in Last(p).nodes
    requires Last(p).nodes[i].lastApplied < Last(p).nodes[i].commitIndex <= |Last(p).nodes[i].log|
    ensures Continues(p, p', Last(p).nodes[i := ApplyNext(Last(p).nodes[i])])
  {
    hide IsPath;
    var s := Last(p);
    p' := Extend(p, Apply(i), s.(nodes := s.nodes[i := ApplyNext(s.nodes[i])]));
  }

  /** A leader sends its suffix to `q`, which handles it. */
  lemma DoReplicate(p: Run, i: Id, q: Id) returns (p': Run)
    requires IsPath(p) && i in Last(p).nodes && Last(p).nodes[i].role == Leader && q in Last(p).nodes
    requires q in Last(p).nodes[i].peers && Last(p).nodes[i].peers[q].nextIndex >= 1 && Last(p).policy == AsWritten
    ensures var req, n := BuildAppend(Last(p).nodes[i], i, q), Last(p).nodes[q];
            && Continues(p, p', Last(p).nodes[q := HandleAppendReq(n, req)]) && AppendAnswer(n, req) in Last(p').appendResps
  {
    hide IsPath, HandleAppendReq, AppendAnswer, Accepts;
    var s, n := Last(p), Last(p).nodes[q];
    var req := BuildAppend(s.nodes[i], i, q);
    var sent := s.(appendReqs := s.appendReqs + {req});
    var p1 := Extend(p, Send(i, q), sent);
    p' := Extend(p1, Receive(q, req),
                 sent.(nodes := s.nodes[q := HandleAppendReq(n, req)], appendResps := s.appendResps + {AppendAnswer(n, req)},
                       h := if Accepts(n, req) then RecordAck(s.h, q, req) else s.h));
  }

  lemma DoAnswer(p: Run, i: Id, resp: AppendResp, k: nat) returns (p': Run)
    requires IsPath(p) && i in Last(p).nodes && resp in Last(p).appendResps && resp.req.leader == i
    requires Last(p).nodes[i].role == Leader && Last(p).nodes[i].currentTerm == resp.req.term
    requires resp.req.to in Last(p).nodes[i].peers && !DeadReq(resp.req)
    requires resp.success ==> IsMajorityIndex(RecordAppend(Last(p).nodes[i], resp), i, k)
    ensures Continues(p, p', Last(p).nodes[i := HandleAppendResp(Last(p).nodes[i], resp, k, true)])
  {
    hide IsPath, HandleAppendResp, RecordAppend, IsMajorityIndex, Holders;
    var s := Last(p);
    var n, n' := s.nodes[i], HandleAppendResp(s.nodes[i], resp, k, true);
    p' := Extend(p, Answer(i, resp, k),
                 s.(nodes := s.nodes[i := n'],
                    h := if n'.commitIndex != n.commitIndex && k <= |n.log|
                         then RecordCommit(s.h, n.currentTerm, k, n.log, Holders(RecordAppend(n, resp), i, k)) else s.h));
  }

  lemma DoLateAnswer(p: Run, i: Id, resp: AppendResp, k: nat) returns (p': Run)
    requires IsPath(p) && i in Last(p).nodes && resp in Last(p).appendResps && resp.req.leader == i
    requires Last(p).policy == AsWritten && Last(p).nodes[i].role != Leader
    requires Last(p).nodes[i].ledTerm == resp.req.term > 0 && resp.req.to in Last(p).nodes[i].peers
    requires resp.success ==> IsMajorityIndex(RecordAppend(Last(p).nodes[i], resp), i, k)
    ensures Continues(p, p', Last(p).nodes[i := HandleAppendResp(Last(p).nodes[i], resp, k, true)])
  {
    hide IsPath, HandleAppendResp, RecordAppend, IsMajorityIndex, LateHolders;
    var s := Last(p);
    var n, n' := s.nodes[i], HandleAppendResp(s.nodes[i], resp, k, true);
    p' := Extend(p, LateAnswer(i, resp, k, true),
                 s.(nodes := s.nodes[i := n'],
                    h := if n'.commitIndex != n.commitIndex && k <= |n.log|
                         then RecordCommit(s.h, n.currentTerm, k, n.log, LateHolders(s.h, n, i, k)) else s.h));
  }

  // ----- elections ---------------------------------------------------------------------------------------

  /** A voter after it voted for `i` in a later term. */
  function Voter(n: Node, i: Id, t: nat): Node {
    StepDown(n, t).(votedFor := i)
  }

  /** One voter's part of an election: it votes, and the candidate counts the vote. */
  lemma OneVote(p: Run, i: Id, v: Id, req: VoteReq) returns (p': Run)
    requires IsPath(p) && i in Last(p).nodes && v in Last(p).nodes && i != v
    requires var n := Last(p).nodes[i];
             && n.role == Candidate && req == ElectionRequest(n, i) && req in Last(p).voteReqs
             && Last(p).nodes[v].currentTerm < n.currentTerm
             && UpToDate(LastTerm(n.log), |n.log|, LastTerm(Last(p).nodes[v].log), |Last(p).nodes[v].log|)
    ensures Continues(p, p', Last(p).nodes[v := Voter(Last(p).nodes[v], i, req.term)]
                                          [i := Last(p).nodes[i].(votes := Last(p).nodes[i].votes + {v})])
  {
    hide IsPath;
    var s := Last(p);
    var p1 := DoVote(p, v, req);
    assert HandleVoteReq(s.nodes[v], req) == Voter(s.nodes[v], i, req.term);
    p' := DoCount(p1, i, VoteAnswer(s.nodes[v], v, req));
  }

  /** The servers once candidate `i` has counted the votes of `voters`. */
  function Counted(nodes: map<Id, Node>, i: Id, voters: set<Id>): map<Id, Node>
    requires i in nodes
  {
    map j | j in nodes :: if j == i then nodes[i].(votes := nodes[i].votes + voters)
                          else if j in voters then Voter(nodes[j], i, nodes[i].currentTerm) else nodes[j]
  }

  /** `v` will vote for a candidate with the log of `n` in a later term than its own. */
  predicate WouldVote(n: Node, v: Node, t: nat) {
    v.currentTerm < t && UpToDate(LastTerm(n.log), |n.log|, LastTerm(v.log), |v.log|)
  }

  lemma {:induction false} CollectVotes(p: Run, i: Id, voters: set<Id>) returns (p': Run)
    requires IsPath(p) && i in Last(p).nodes && voters <= Last(p).nodes.Keys && i !in voters
    requires Last(p).nodes[i].role == Candidate && ElectionRequest(Last(p).nodes[i], i) in Last(p).voteReqs
    requires forall v | v in voters :: WouldVote(Last(p).nodes[i], Last(p).nodes[v], Last(p).nodes[i].currentTerm)
    ensures Continues(p, p', Counted(Last(p).nodes, i, voters))
    decreases |voters|
  {
    hide IsPath, Voter, WouldVote, Counted;
    var nodes := Last(p).nodes;
    if voters == {} {
      p' := p;
      CountedNone(nodes, i);
    } else {
      var v :| v in voters;
      assert WouldVote(nodes[i], nodes[v], nodes[i].currentTerm);
      Willing(nodes[i], nodes[v]);
      var p1 := OneVote(p, i, v, ElectionRequest(nodes[i], i));
      forall u | u in voters - {v} ensures WouldVote(Last(p1).nodes[i], Last(p1).nodes[u], nodes[i].currentTerm) {
        assert WouldVote(nodes[i], nodes[u], nodes[i].currentTerm);
        SameWill(nodes[i], Last(p1).nodes[i], nodes[u], nodes[i].currentTerm);
      }
      p' := CollectVotes(p1, i, voters - {v});
      CountedMore(nodes, i, v, voters);
    }
  }

  lemma Willing(n: Node, v: Node)
    requires WouldVote(n, v, n.currentTerm)
    ensures v.currentTerm < n.currentTerm && UpToDate(LastTerm(n.log), |n.log|, LastTerm(v.log), |v.log|)
  {
  }

  lemma SameWill(n: Node, n': Node, v: Node, t: nat)
    requires WouldVote(n, v, t) && n'.log == n.log
    ensures WouldVote(n', v, t)
  {
  }

  lemma CountedNone(nodes: map<Id, Node>, i: Id)
    requires i in nodes
    ensures Counted(nodes, i, {}) == nodes
  {
    assert nodes[i].votes + {} == nodes[i].votes;
  }

  lemma CountedMore(nodes: map<Id, Node>, i: Id, v: Id, voters: set<Id>)
    requires i in nodes && v in nodes && v in voters && i !in voters
    ensures Counted(nodes[v := Voter(nodes[v], i, nodes[i].currentTerm)][i := nodes[i].(votes := nodes[i].votes + {v})],
                    i, voters - {v})
         == Counted(nodes, i, voters)
  {
    hide Voter;
    assert nodes[i].votes + {v} + (voters - {v}) == nodes[i].votes + voters;
  }

  function Winner(n: Node, i: Id, voters: set<Id>, servers: set<Id>): Node {
    BecomeLeader(StartElection(n, i).(votes := {i} + voters), servers - {i})
  }

  /** The servers once `i` has been elected by `voters` in its next term. */
  function Elected(nodes: map<Id, Node>, i: Id, voters: set<Id>, servers: set<Id>): map<Id, Node>
    requires i in nodes
  {
    map j | j in nodes :: if j == i then Winner(nodes[i], i, voters, servers)
                          else if j in voters then Voter(nodes[j], i, nodes[i].currentTerm + 1) else nodes[j]
  }

  lemma Elect(p: Run, i: Id, voters: set<Id>) returns (p': Run)
    requires IsPath(p) && i in Last(p).nodes && voters <= Last(p).nodes.Keys && i !in voters
    requires Last(p).nodes[i].role != Leader && IsQuorum(Last(p).servers, {i} + voters)
    requires forall v | v in voters :: WouldVote(Last(p).nodes[i], Last(p).nodes[v], Last(p).nodes[i].currentTerm + 1)
    ensures Continues(p, p', Elected(Last(p).nodes, i, voters, Last(p).servers))
    ensures var n := Last(p).nodes[i];
            VoteReq(n.currentTerm + 1, i, |n.log|, LastTerm(n.log)) in Last(p').voteReqs
  {
    hide IsPath, Voter, UpToDate, BecomeLeader, IsQuorum;
    var s := Last(p);
    p' := DoTimeout(p, i);
    p' := CollectVotes(p', i, voters);
    p' := DoWin(p', i);
    assert Last(p').nodes == Elected(s.nodes, i, voters, s.servers);
  }

  // ----- replication -------------------------------------------------------------------------------------

  /** A request that reaches past the end of the follower's log, and the leader's reaction. */
  lemma DoBackUp(p: Run, i: Id, q: Id) returns (p': Run)
    requires IsPath(p) && i in Last(p).nodes && q in Last(p).nodes && i != q
    requires var n, m := Last(p).nodes[i], Last(p).nodes[q];
             && n.role == Leader && q in n.peers && n.peers[q].nextIndex >= 1 && m.currentTerm <= n.currentTerm
             && !Consistent(m.log, BuildAppend(n, i, q)) && !DeadReq(BuildAppend(n, i, q))
             && Last(p).policy == AsWritten
    ensures var n, m := Last(p).nodes[i], Last(p).nodes[q];
            var req := BuildAppend(n, i, q);
            var peer := n.peers[q].(nextIndex := BackUp(n.log, AppendAnswer(m, req)));
            Continues(p, p', Last(p).nodes[q := FollowerState(m, req)][i := n.(peers := n.peers[q := peer])])
  {
    hide IsPath, BackUp;
    var n, m := Last(p).nodes[i], Last(p).nodes[q];
    var req := BuildAppend(n, i, q);
    var p1 := DoReplicate(p, i, q);
    assert HandleAppendReq(m, req) == FollowerState(m, req);
    p' := DoAnswer(p1, i, AppendAnswer(m, req), 0);
  }

  predicate TermsOk(log: seq<Entry>) {
    forall x | 0 <= x < |log| :: log[x].term >= 1
  }

  function Request(n: Node, i: Id, q: Id): AppendReq {
    AppendReq(n.currentTerm, i, q, 0, 0, n.log, 0)
  }

  function Accepted(n: Node, i: Id, q: Id): AppendResp {
    AppendResp(Request(n, i, q), n.currentTerm, true, 0, 0)
  }

  /** A leader brings an empty follower up to its whole log; the answer stays on its way. */
  lemma CatchUp(p: Run, i: Id, q: Id) returns (p': Run)
    requires IsPath(p) && i in Last(p).nodes && q in Last(p).nodes && i != q
    requires var n, m := Last(p).nodes[i], Last(p).nodes[q];
             && n.role == Leader && m.role == Follower && m.currentTerm == n.currentTerm
             && m.log == [] && m.commitIndex == n.commitIndex == 0
             && q in n.peers && 2 <= n.peers[q].nextIndex <= |n.log| + 1
             && Last(p).policy == AsWritten && TermsOk(n.log)
    ensures var n, m := Last(p).nodes[i], Last(p).nodes[q];
            && Continues(p, p', Last(p).nodes[i := n.(peers := n.peers[q := n.peers[q].(nextIndex := 1)])]
                                             [q := m.(log := n.log)])
            && Accepted(n, i, q) in Last(p').appendResps
  {
    hide IsPath, HandleAppendReq, AppendAnswer, BackUp, FollowerState, Consistent, BuildAppend;
    var n, m := Last(p).nodes[i], Last(p).nodes[q];
    TooShort(n, m, i, q);
    var p1 := DoBackUp(p, i, q);
    FromStart(Last(p1).nodes[i], m, i, q);
    p' := DoReplicate(p1, i, q);
  }

  /** An empty follower rejects what does not begin at the start, and sends the leader back there. */
  lemma TooShort(n: Node, m: Node, i: Id, q: Id)
    requires m.role == Follower && m.currentTerm == n.currentTerm && m.log == []
    requires q in n.peers && 2 <= n.peers[q].nextIndex <= |n.log| + 1 && TermsOk(n.log)
    ensures var req := BuildAppend(n, i, q);
            && !Consistent(m.log, req) && !DeadReq(req) && FollowerState(m, req) == m
            && BackUp(n.log, AppendAnswer(m, req)) == 1
  {
  }

  /** An empty follower takes a whole log. */
  lemma FromStart(n: Node, m: Node, i: Id, q: Id)
    requires m.role == Follower && m.currentTerm == n.currentTerm && m.log == [] && m.commitIndex == n.commitIndex == 0
    requires q in n.peers && n.peers[q].nextIndex == 1
    ensures var req := BuildAppend(n, i, q);
            && req == Request(n, i, q) && HandleAppendReq(m, req) == m.(log := n.log)
            && AppendAnswer(m, req) == Accepted(n, i, q)
  {
    assert n.log[0..] == n.log;
    assert [] + n.log == n.log;
  }

  // ----- replication to many ------------------------------------------------------------------------------

  /** The records of leader `i`: those of `matched` have answered for the whole log. */
  function Matched(servers: set<Id>, i: Id, matched: set<Id>, len: nat, next: nat): map<Id, Peer> {
    map p | p in servers - {i} :: if p in matched then Peer(len + 1, len) else Peer(next, 0)
  }

  /** What the leader counts as held by a majority. */
  function Reached(servers: set<Id>, matched: set<Id>, len: nat): nat {
    if 1 + |matched| >= |servers| / 2 + 1 then len else 0
  }

  lemma HoldersOfMatched(servers: set<Id>, i: Id, n: Node, matched: set<Id>, next: nat, k: nat)
    requires i in servers && matched <= servers - {i} && |n.log| >= 1
    requires n.peers == Matched(servers, i, matched, |n.log|, next)
    ensures k == 0 ==> Holders(n, i, k) == servers
    ensures 1 <= k <= |n.log| ==> Holders(n, i, k) == {i} + matched
    ensures k > |n.log| ==> Holders(n, i, k) == {}
  {
  }

  lemma MatchedSize(servers: set<Id>, i: Id, matched: set<Id>, len: nat, next: nat)
    requires i in servers && matched <= servers - {i}
    ensures |Matched(servers, i, matched, len, next)| + 1 == |servers| && |{i} + matched| == 1 + |matched|
  {
    var peers := Matched(servers, i, matched, len, next);
    assert peers.Keys == servers - {i} && |peers| == |peers.Keys|;
  }

  lemma MatchedMajority(servers: set<Id>, i: Id, n: Node, matched: set<Id>, next: nat)
    requires i in servers && matched <= servers - {i} && |n.log| >= 1
    requires n.peers == Matched(servers, i, matched, |n.log|, next)
    ensures IsMajorityIndex(n, i, Reached(servers, matched, |n.log|))
  {
    hide Holders, Matched;
    MatchedSize(servers, i, matched, |n.log|, next);
    var k := Reached(servers, matched, |n.log|);
    HoldersOfMatched(servers, i, n, matched, next, k);
    HoldersOfMatched(servers, i, n, matched, next, k + 1);
  }

  /** An answer for the whole log. */
  predicate Whole(n: Node, i: Id, q: Id, resp: AppendResp) {
    && resp.success && resp.term == n.currentTerm == resp.req.term && resp.req.leader == i && resp.req.to == q
    && resp.req.prevIndex + |resp.req.entries| == |n.log| && resp.req.entries != []
  }

  /** A leader records such an answer and counts again. */
  lemma AnswerWhole(p: Run, i: Id, q: Id, resp: AppendResp, matched: set<Id>, next: nat) returns (p': Run)
    requires IsPath(p) && i in Last(p).nodes && i in Last(p).servers && resp in Last(p).appendResps
    requires var s, n := Last(p), Last(p).nodes[i];
             && n.role == Leader && Whole(n, i, q, resp) && |n.log| >= 1
             && q in s.servers - {i} && q !in matched && matched <= s.servers - {i}
             && q in n.peers && n.peers.Keys == s.servers - {i}
             && (forall x | x in s.servers - {i} - {q} ::
                   n.peers[x] == Matched(s.servers, i, matched, |n.log|, next)[x])
    ensures var s, n := Last(p), Last(p).nodes[i];
            Continues(p, p', s.nodes[i := AdvanceCommit(
                n.(peers := Matched(s.servers, i, matched + {q}, |n.log|, next)),
                Reached(s.servers, matched + {q}, |n.log|))])
  {
    hide IsPath, IsMajorityIndex, AdvanceCommit;
    var s, n := Last(p), Last(p).nodes[i];
    var m := RecordAppend(n, resp);
    assert m.peers == Matched(s.servers, i, matched + {q}, |n.log|, next);
    MatchedMajority(s.servers, i, m, matched + {q}, next);
    p' := DoAnswer(p, i, resp, Reached(s.servers, matched + {q}, |n.log|));
  }

  /** A follower with nothing in its log. */
  predicate Blank(m: Node, t: nat) {
    m.role == Follower && m.currentTerm == t && m.log == [] && m.commitIndex == 0
  }

  /** The servers once leader `i` has brought `done` up to its log. */
  function Caught(nodes: map<Id, Node>, i: Id, done: set<Id>, peers: map<Id, Peer>): map<Id, Node>
    requires i in nodes
  {
    map j | j in nodes :: if j == i then nodes[i].(peers := peers)
                          else if j in done then nodes[j].(log := nodes[i].log) else nodes[j]
  }

  /** A leader whose log ends in an earlier term, so that its count commits nothing. */
  predicate OldLogLeader(n: Node) {
    n.role == Leader && n.commitIndex == 0 && |n.log| >= 1 && TermsOk(n.log) && LastTerm(n.log) != n.currentTerm
  }

  lemma CatchUpOne(p: Run, i: Id, q: Id, matched: set<Id>) returns (p': Run)
    requires IsPath(p) && Last(p).policy == AsWritten && Last(p).nodes.Keys == Last(p).servers && i in Last(p).nodes
    requires var s, n := Last(p), Last(p).nodes[i];
             && OldLogLeader(n) && n.peers == Matched(s.servers, i, matched, |n.log|, |n.log| + 1)
             && q in s.servers - {i} - matched && matched <= s.servers - {i} && Blank(s.nodes[q], n.currentTerm)
    ensures var s, n := Last(p), Last(p).nodes[i];
            Continues(p, p', Caught(s.nodes, i, {q}, Matched(s.servers, i, matched + {q}, |n.log|, |n.log| + 1)))
  {
    hide IsPath, IsMajorityIndex;
    var s, n := Last(p), Last(p).nodes[i];
    p' := CatchUp(p, i, q);
    p' := AnswerWhole(p', i, q, Accepted(n, i, q), matched, |n.log| + 1);
    assert Last(p').nodes == Caught(s.nodes, i, {q}, Matched(s.servers, i, matched + {q}, |n.log|, |n.log| + 1));
  }

  lemma {:induction false} CatchUpAll(p: Run, i: Id, todo: set<Id>, matched: set<Id>) returns (p': Run)
    requires IsPath(p) && Last(p).policy == AsWritten && Last(p).nodes.Keys == Last(p).servers && i in Last(p).nodes
    requires var s, n := Last(p), Last(p).nodes[i];
             && OldLogLeader(n) && n.peers == Matched(s.servers, i, matched, |n.log|, |n.log| + 1)
             && todo <= s.servers - {i} - matched && matched <= s.servers - {i}
             && (forall q | q in todo :: Blank(s.nodes[q], n.currentTerm))
    ensures var s, n := Last(p), Last(p).nodes[i];
            Continues(p, p', Caught(s.nodes, i, todo, Matched(s.servers, i, matched + todo, |n.log|, |n.log| + 1)))
    decreases |todo|
  {
    hide IsPath, Caught, Matched, OldLogLeader, Blank;
    var s, n := Last(p), Last(p).nodes[i];
    if todo == {} {
      p' := p;
      assert matched + {} == matched;
      CaughtNone(s.nodes, i);
    } else {
      var q :| q in todo;
      assert Blank(s.nodes[q], n.currentTerm);
      var p1 := CatchUpOne(p, i, q, matched);
      CaughtOne(s.nodes, i, q, Matched(s.servers, i, matched + {q}, |n.log|, |n.log| + 1), todo);
      SameOldLog(n, Last(p1).nodes[i]);
      p' := CatchUpAll(p1, i, todo - {q}, matched + {q});
      assert matched + {q} + (todo - {q}) == matched + todo;
      CaughtMore(s.nodes, i, q, Matched(s.servers, i, matched + {q}, |n.log|, |n.log| + 1), todo,
                 Matched(s.servers, i, matched + todo, |n.log|, |n.log| + 1));
    }
  }

  lemma SameOldLog(n: Node, n': Node)
    requires OldLogLeader(n) && n' == n.(peers := n'.peers)
    ensures OldLogLeader(n')
  {
  }

  lemma CaughtNone(nodes: map<Id, Node>, i: Id)
    requires i in nodes
    ensures Caught(nodes, i, {}, nodes[i].peers) == nodes
  {
  }

  lemma CaughtOne(nodes: map<Id, Node>, i: Id, q: Id, peers: map<Id, Peer>, todo: set<Id>)
    requires i in nodes && q in nodes && todo <= nodes.Keys - {i}
    ensures var nodes' := Caught(nodes, i, {q}, peers);
            && nodes'.Keys == nodes.Keys && nodes'[i] == nodes[i].(peers := peers)
            && forall x | x in todo - {q} :: nodes'[x] == nodes[x]
  {
  }

  lemma CaughtMore(nodes: map<Id, Node>, i: Id, q: Id, peers: map<Id, Peer>, todo: set<Id>, peers': map<Id, Peer>)
    requires i in nodes && q in nodes && q in todo && i !in todo
    ensures Caught(nodes, i, {q}, peers).Keys == nodes.Keys
    ensures Caught(Caught(nodes, i, {q}, peers), i, todo - {q}, peers') == Caught(nodes, i, todo, peers')
  {
  }

  // ----- the cast ---------------------------------------------------------------------------------------------

  /** Servers a and e, and the crowd of all others, b among them. */
  datatype Cast = Cast(servers: set<Id>, a: Id, b: Id, e: Id)

  predicate CastOk(c: Cast) {
    && |c.servers| >= 5 && NOBODY !in c.servers
    && {c.a, c.b, c.e} <= c.servers && c.a != c.b && c.a != c.e && c.b != c.e
  }

  function Crowd(c: Cast): set<Id> {
    c.servers - {c.a, c.e}
  }

  /** The crowd is a quorum, alone or with a or e. */
  lemma CrowdIsQuorum(c: Cast)
    requires CastOk(c)
    ensures |Crowd(c)| == |c.servers| - 2 >= |c.servers| / 2 + 1
    ensures IsQuorum(c.servers, {c.a} + Crowd(c)) && IsQuorum(c.servers, {c.e} + Crowd(c)) && IsQuorum(c.servers, Crowd(c))
    ensures {c.b} + (Crowd(c) - {c.b}) == Crowd(c) && |Crowd(c) - {c.b}| == |Crowd(c)| - 1
  {
    assert |c.servers - {c.a}| == |c.servers| - 1 && c.servers - {c.a} - {c.e} == Crowd(c);
    assert |{c.a} + Crowd(c)| == 1 + |Crowd(c)| && |{c.e} + Crowd(c)| == 1 + |Crowd(c)|;
  }

  function Scene(c: Cast, a: Node, v: Node, e: Node): map<Id, Node> {
    map i | i in c.servers :: if i == c.a then a else if i == c.e then e else v
  }

  ghost predicate At(s: State, c: Cast, a: Node, v: Node, e: Node) {
    s.policy == AsWritten && s.servers == c.servers && s.nodes == Scene(c, a, v, e)
  }

  /** As in the source, the first entry of a term is the no-op. */
  function NoOp(t: nat): Entry {
    Entry(t, [])
  }

  const X1 := Entry(1, [1])
  const Y1 := Entry(1, [2])
  const X4 := Entry(4, [4])

  const LogA := [NoOp(1), X1, Y1]
  const LogE := [NoOp(2), NoOp(4), X4]
  const LogB := [NoOp(1), X1, Y1, NoOp(5)]

  /** A server that has never led. */
  function Plain(t: nat, vote: Id, log: seq<Entry>): Node {
    Node(t, vote, log, Follower, 0, 0, map[], 0, {}, [])
  }

  function Led(t: nat, i: Id, log: seq<Entry>, peers: map<Id, Peer>, votes: set<Id>): Node {
    Node(t, i, log, Leader, 0, 0, peers, t, votes, [])
  }

  /** A former leader of term `led`. */
  function Former(t: nat, log: seq<Entry>, peers: map<Id, Peer>, led: nat, votes: set<Id>): Node {
    Node(t, NOBODY, log, Follower, 0, 0, peers, led, votes, [])
  }

  lemma WinnerLeads(n: Node, i: Id, voters: set<Id>, servers: set<Id>)
    requires n.commitIndex == n.lastApplied == 0 && n.applied == []
    ensures Winner(n, i, voters, servers)
         == Led(n.currentTerm + 1, i, n.log, Matched(servers, i, {}, |n.log|, |n.log| + 1), {i} + voters)
  {
  }

  lemma InScene(c: Cast, a: Node, v: Node, e: Node)
    requires CastOk(c)
    ensures Scene(c, a, v, e).Keys == c.servers && Scene(c, a, v, e)[c.a] == a && Scene(c, a, v, e)[c.e] == e
    ensures Crowd(c) <= c.servers && c.a !in Crowd(c) && c.e !in Crowd(c)
    ensures forall i | i in Crowd(c) :: Scene(c, a, v, e)[i] == v
  {
  }

  lemma SceneElected(c: Cast, a: Node, v: Node, e: Node)
    requires CastOk(c)
    ensures c.a in Scene(c, a, v, e) && c.e in Scene(c, a, v, e)
    ensures Elected(Scene(c, a, v, e), c.a, Crowd(c), c.servers)
         == Scene(c, Winner(a, c.a, Crowd(c), c.servers), Voter(v, c.a, a.currentTerm + 1), e)
    ensures Elected(Scene(c, a, v, e), c.e, Crowd(c), c.servers)
         == Scene(c, a, Voter(v, c.e, e.currentTerm + 1), Winner(e, c.e, Crowd(c), c.servers))
  {
    hide Winner, Voter;
  }

  /** The election of a by the crowd. */
  lemma ElectA(p: Run, c: Cast, a: Node, v: Node, e: Node) returns (q: Run)
    requires CastOk(c) && IsPath(p) && At(Last(p), c, a, v, e)
    requires a.role != Leader && WouldVote(a, v, a.currentTerm + 1)
    requires a.commitIndex == a.lastApplied == 0 && a.applied == []
    ensures IsPath(q) && q.states[0] == p.states[0]
    ensures At(Last(q), c,
               Led(a.currentTerm + 1, c.a, a.log, Matched(c.servers, c.a, {}, |a.log|, |a.log| + 1), {c.a} + Crowd(c)),
               Voter(v, c.a, a.currentTerm + 1), e)
    ensures VoteReq(a.currentTerm + 1, c.a, |a.log|, LastTerm(a.log)) in Last(q).voteReqs
  {
    hide IsPath, Winner, Voter, WouldVote, IsQuorum, Led, Scene, Elected, Crowd;
    CrowdIsQuorum(c);
    InScene(c, a, v, e);
    WinnerLeads(a, c.a, Crowd(c), c.servers);
    q := Elect(p, c.a, Crowd(c));
    SceneElected(c, a, v, e);
  }

  /** The election of e by the crowd. */
  lemma ElectE(p: Run, c: Cast, a: Node, v: Node, e: Node) returns (q: Run)
    requires CastOk(c) && IsPath(p) && At(Last(p), c, a, v, e)
    requires e.role != Leader && WouldVote(e, v, e.currentTerm + 1)
    requires e.commitIndex == e.lastApplied == 0 && e.applied == []
    ensures IsPath(q) && q.states[0] == p.states[0] && Last(p).appendResps <= Last(q).appendResps
    ensures At(Last(q), c, a, Voter(v, c.e, e.currentTerm + 1),
               Led(e.currentTerm + 1, c.e, e.log, Matched(c.servers, c.e, {}, |e.log|, |e.log| + 1), {c.e} + Crowd(c)))
    ensures VoteReq(e.currentTerm + 1, c.e, |e.log|, LastTerm(e.log)) in Last(q).voteReqs
  {
    hide IsPath, Winner, Voter, WouldVote, IsQuorum, Led, Scene, Elected, Crowd;
    CrowdIsQuorum(c);
    InScene(c, a, v, e);
    WinnerLeads(e, c.e, Crowd(c), c.servers);
    q := Elect(p, c.e, Crowd(c));
    SceneElected(c, a, v, e);
  }

  /** One of a and e appends. */
  lemma AppendAE(p: Run, c: Cast, i: Id, a: Node, v: Node, e: Node, data: Bytes) returns (q: Run)
    requires CastOk(c) && IsPath(p) && At(Last(p), c, a, v, e) && i in {c.a, c.e}
    requires (if i == c.a then a else e).role == Leader
    ensures IsPath(q) && q.states[0] == p.states[0] && Last(p).appendResps <= Last(q).appendResps
    ensures Last(p).voteReqs <= Last(q).voteReqs
    ensures At(Last(q), c, if i == c.a then AppendEntry(a, data) else a, v, if i == c.e then AppendEntry(e, data) else e)
  {
    hide IsPath, AppendEntry;
    q := DoAppend(p, i, data);
    assert Last(q).nodes
        == Scene(c, if i == c.a then AppendEntry(a, data) else a, v, if i == c.e then AppendEntry(e, data) else e);
  }

  /** One of a and e is asked for its vote by the other. */
  lemma AskAE(p: Run, c: Cast, i: Id, req: VoteReq, a: Node, v: Node, e: Node) returns (q: Run)
    requires CastOk(c) && IsPath(p) && At(Last(p), c, a, v, e) && i in {c.a, c.e}
    requires req in Last(p).voteReqs && req.candidate != i
    ensures IsPath(q) && q.states[0] == p.states[0]
    ensures At(Last(q), c, if i == c.a then HandleVoteReq(a, req) else a, v, if i == c.e then HandleVoteReq(e, req) else e)
  {
    hide IsPath, HandleVoteReq;
    q := DoVote(p, i, req);
    assert Last(q).nodes
        == Scene(c, if i == c.a then HandleVoteReq(a, req) else a, v, if i == c.e then HandleVoteReq(e, req) else e);
  }

  // ----- the run ------------------------------------------------------------------------------------------------

  /** a leads term 1 and appends a no-op and two commands that reach nobody. */
  lemma TermOne(c: Cast) returns (p: Run)
    requires CastOk(c)
    ensures IsPath(p) && Init(p.states[0]) && p.states[0].policy == AsWritten && p.states[0].servers == c.servers
    ensures At(Last(p), c, Led(1, c.a, LogA, Matched(c.servers, c.a, {}, 0, 1), {c.a} + Crowd(c)),
               Plain(1, c.a, []), Plain(0, NOBODY, []))
  {
    hide Next, Matched, Scene;
    var fresh0 := Plain(0, NOBODY, []);
    var s := State(AsWritten, c.servers, map i | i in c.servers :: Restart(0, NOBODY, []), {}, {}, {}, {},
                   History(map[], map[], map[], {}, {}, []));
    UniformScene(c, fresh0);
    p := Run([s], []);
    p := ElectA(p, c, fresh0, fresh0, fresh0);
    var a := Led(1, c.a, [], Matched(c.servers, c.a, {}, 0, 1), {c.a} + Crowd(c));
    var v := Plain(1, c.a, []);
    p := AppendAE(p, c, c.a, a, v, fresh0, []);
    p := AppendAE(p, c, c.a, AppendEntry(a, []), v, fresh0, [1]);
    p := AppendAE(p, c, c.a, AppendEntry(AppendEntry(a, []), [1]), v, fresh0, [2]);
    assert [] + [NoOp(1)] + [X1] + [Y1] == LogA;
    assert AppendEntry(AppendEntry(AppendEntry(a, []), [1]), [2]) == a.(log := LogA);
  }

  lemma UniformScene(c: Cast, n: Node)
    ensures Scene(c, n, n, n) == map i | i in c.servers :: n
  {
  }

  /** e leads term 2 by the votes of the crowd and appends its no-op; a hears of the term and gives up. */
  lemma TermTwo(c: Cast, p: Run) returns (q: Run)
    requires CastOk(c) && IsPath(p)
    requires At(Last(p), c, Led(1, c.a, LogA, Matched(c.servers, c.a, {}, 0, 1), {c.a} + Crowd(c)),
                Plain(1, c.a, []), Plain(0, NOBODY, []))
    ensures IsPath(q) && q.states[0] == p.states[0]
    ensures At(Last(q), c, Former(2, LogA, Matched(c.servers, c.a, {}, 0, 1), 1, {c.a} + Crowd(c)), Plain(2, c.e, []),
               Led(2, c.e, [NoOp(2)], Matched(c.servers, c.e, {}, 0, 1), {c.e} + Crowd(c)))
  {
    hide IsPath, Matched, Scene;
    var a, v := Led(1, c.a, LogA, Matched(c.servers, c.a, {}, 0, 1), {c.a} + Crowd(c)), Plain(1, c.a, []);
    var e1 := StartElection(Plain(0, NOBODY, []), c.e);
    q := StandE(p, c, a, v, Plain(0, NOBODY, []));
    q := ElectE(q, c, a, v, e1);
    var e2 := Led(2, c.e, [], Matched(c.servers, c.e, {}, 0, 1), {c.e} + Crowd(c));
    q := AskAE(q, c, c.a, VoteReq(2, c.e, 0, 0), a, Plain(2, c.e, []), e2);
    var a' := Former(2, LogA, Matched(c.servers, c.a, {}, 0, 1), 1, {c.a} + Crowd(c));
    assert HandleVoteReq(a, VoteReq(2, c.e, 0, 0)) == a';
    q := AppendAE(q, c, c.e, a', Plain(2, c.e, []), e2, []);
    assert [] + [NoOp(2)] == [NoOp(2)];
    assert AppendEntry(e2, []) == e2.(log := [NoOp(2)]);
  }

  /** e stands for election, and nobody hears of it. */
  lemma StandE(p: Run, c: Cast, a: Node, v: Node, e: Node) returns (q: Run)
    requires CastOk(c) && IsPath(p) && At(Last(p), c, a, v, e) && e.role != Leader
    ensures IsPath(q) && q.states[0] == p.states[0] && At(Last(q), c, a, v, StartElection(e, c.e))
  {
    hide IsPath, StartElection;
    q := DoTimeout(p, c.e);
    assert Last(q).nodes == Scene(c, a, v, StartElection(e, c.e));
  }

  /** a leads term 3 by the votes of the crowd; e hears of it and gives up. */
  lemma TermThree(c: Cast, p: Run) returns (q: Run)
    requires CastOk(c) && IsPath(p)
    requires At(Last(p), c, Former(2, LogA, Matched(c.servers, c.a, {}, 0, 1), 1, {c.a} + Crowd(c)), Plain(2, c.e, []),
                Led(2, c.e, [NoOp(2)], Matched(c.servers, c.e, {}, 0, 1), {c.e} + Crowd(c)))
    ensures IsPath(q) && q.states[0] == p.states[0]
    ensures At(Last(q), c, Led(3, c.a, LogA, Matched(c.servers, c.a, {}, 3, 4), {c.a} + Crowd(c)), Plain(3, c.a, []),
               Former(3, [NoOp(2)], Matched(c.servers, c.e, {}, 0, 1), 2, {c.e} + Crowd(c)))
  {
    hide IsPath, Matched, Scene;
    var a := Former(2, LogA, Matched(c.servers, c.a, {}, 0, 1), 1, {c.a} + Crowd(c));
    var e := Led(2, c.e, [NoOp(2)], Matched(c.servers, c.e, {}, 0, 1), {c.e} + Crowd(c));
    q := ElectA(p, c, a, Plain(2, c.e, []), e);
    var req := VoteReq(3, c.a, 3, 1);
    q := AskAE(q, c, c.e, req, Led(3, c.a, LogA, Matched(c.servers, c.a, {}, 3, 4), {c.a} + Crowd(c)), Plain(3, c.a, []), e);
    assert HandleVoteReq(e, req) == Former(3, [NoOp(2)], Matched(c.servers, c.e, {}, 0, 1), 2, {c.e} + Crowd(c));
  }

  function DelayedAnswer(c: Cast): AppendResp {
    AppendResp(AppendReq(3, c.a, c.b, 0, 0, LogA, 0), 3, true, 0, 0)
  }

  /** What a knows of its peers when b's answer is still missing. */
  function PeersOfA(c: Cast): map<Id, Peer> {
    Matched(c.servers, c.a, Crowd(c) - {c.b}, 3, 4)[c.b := Peer(1, 0)]
  }

  /** Before its no-op, a brings the crowd up to its log; all answers arrive but that of b. */
  lemma Replication(c: Cast, p: Run) returns (q: Run)
    requires CastOk(c) && IsPath(p)
    requires At(Last(p), c, Led(3, c.a, LogA, Matched(c.servers, c.a, {}, 3, 4), {c.a} + Crowd(c)), Plain(3, c.a, []),
                Former(3, [NoOp(2)], Matched(c.servers, c.e, {}, 0, 1), 2, {c.e} + Crowd(c)))
    ensures IsPath(q) && q.states[0] == p.states[0] && DelayedAnswer(c) in Last(q).appendResps
    ensures At(Last(q), c, Led(3, c.a, LogA, PeersOfA(c), {c.a} + Crowd(c)), Plain(3, c.a, LogA),
               Former(3, [NoOp(2)], Matched(c.servers, c.e, {}, 0, 1), 2, {c.e} + Crowd(c)))
  {
    hide IsPath, Matched, Caught, Scene;
    var a := Led(3, c.a, LogA, Matched(c.servers, c.a, {}, 3, 4), {c.a} + Crowd(c));
    var v := Plain(3, c.a, []);
    var e := Former(3, [NoOp(2)], Matched(c.servers, c.e, {}, 0, 1), 2, {c.e} + Crowd(c));
    var most := Crowd(c) - {c.b};
    InScene(c, a, v, e);
    q := CatchUpAll(p, c.a, most, {});
    assert {} + most == most;
    RecordOfB(c);
    CaughtScene(c, a, v, e, Matched(c.servers, c.a, most, 3, 4));
    q := CatchUp(q, c.a, c.b);
  }

  /** The crowd but b has been brought up to a's log; when b has been too, the crowd is of one kind again. */
  lemma CaughtScene(c: Cast, a: Node, v: Node, e: Node, peers: map<Id, Peer>)
    requires CastOk(c) && c.b in peers
    ensures c.a in Scene(c, a, v, e)
    ensures var nodes := Caught(Scene(c, a, v, e), c.a, Crowd(c) - {c.b}, peers);
            && c.a in nodes && c.b in nodes && nodes[c.a] == a.(peers := peers) && nodes[c.b] == v
            && var a' := a.(peers := peers[c.b := peers[c.b].(nextIndex := 1)]);
               nodes[c.a := a'][c.b := v.(log := a.log)] == Scene(c, a', v.(log := a.log), e)
  {
  }

  lemma RecordOfB(c: Cast)
    requires CastOk(c)
    ensures var peers := Matched(c.servers, c.a, Crowd(c) - {c.b}, 3, 4); c.b in peers && peers[c.b] == Peer(4, 0)
    ensures c.b in PeersOfA(c)
  {
  }

  /** a, when it follows e. */
  function FollowerA(c: Cast): Node {
    Former(4, LogE, PeersOfA(c), 3, {c.a} + Crowd(c))
  }

  function LeaderE(c: Cast): Node {
    Led(4, c.e, LogE, Matched(c.servers, c.e, {}, 1, 2)[c.a := Peer(1, 0)], {c.e} + Crowd(c))
  }

  /** e leads term 4 by the votes of the crowd, appends a no-op and a command, and replaces a's log. */
  lemma TermFour(c: Cast, p: Run) returns (q: Run)
    requires CastOk(c) && IsPath(p) && DelayedAnswer(c) in Last(p).appendResps
    requires At(Last(p), c, Led(3, c.a, LogA, PeersOfA(c), {c.a} + Crowd(c)), Plain(3, c.a, LogA),
                Former(3, [NoOp(2)], Matched(c.servers, c.e, {}, 0, 1), 2, {c.e} + Crowd(c)))
    ensures IsPath(q) && q.states[0] == p.states[0] && DelayedAnswer(c) in Last(q).appendResps
    ensures At(Last(q), c, FollowerA(c), Plain(4, c.e, LogA), LeaderE(c))
  {
    hide IsPath, Matched, PeersOfA, Scene;
    var a, v := Led(3, c.a, LogA, PeersOfA(c), {c.a} + Crowd(c)), Plain(4, c.e, LogA);
    q := ElectE(p, c, a, Plain(3, c.a, LogA), Former(3, [NoOp(2)], Matched(c.servers, c.e, {}, 0, 1), 2, {c.e} + Crowd(c)));
    var e := Led(4, c.e, [NoOp(2)], Matched(c.servers, c.e, {}, 1, 2), {c.e} + Crowd(c));
    q := AppendAE(q, c, c.e, a, v, e, []);
    q := AppendAE(q, c, c.e, a, v, AppendEntry(e, []), [4]);
    assert [NoOp(2)] + [NoOp(4)] + [X4] == LogE;
    assert AppendEntry(AppendEntry(e, []), [4]) == e.(log := LogE);
    q := Overwrite(q, c, a, v, e.(log := LogE));
  }

  /** e finds that a has another log, goes back to the start, and sends its own. */
  lemma Overwrite(p: Run, c: Cast, a: Node, v: Node, e: Node) returns (q: Run)
    requires CastOk(c) && IsPath(p) && At(Last(p), c, a, v, e) && a.log == LogA && e.log == LogE
    requires e.role == Leader && a.currentTerm < e.currentTerm && a.commitIndex == e.commitIndex == 0
    requires e.peers == Matched(c.servers, c.e, {}, 1, 2)
    ensures IsPath(q) && q.states[0] == p.states[0] && Last(p).appendResps <= Last(q).appendResps
    ensures At(Last(q), c, StepDown(a, e.currentTerm).(log := LogE), v, e.(peers := e.peers[c.a := Peer(1, 0)]))
  {
    hide IsPath, HandleAppendReq, AppendAnswer, BackUp, FollowerState, Consistent, BuildAppend;
    assert c.a in e.peers && e.peers[c.a] == Peer(2, 0);
    OtherLog(e, a, c.e, c.a);
    q := DoBackUp(p, c.e, c.a);
    var e' := e.(peers := e.peers[c.a := Peer(1, 0)]);
    assert Last(q).nodes[c.e] == e' && Last(q).nodes[c.a] == StepDown(a, e.currentTerm);
    WholeLog(e', StepDown(a, e.currentTerm), c.e, c.a);
    q := DoReplicate(q, c.e, c.a);
    assert Last(q).nodes == Scene(c, StepDown(a, e.currentTerm).(log := LogE), v, e');
  }

  /** A former leader with another first entry rejects, and sends the new leader back to the start. */
  lemma OtherLog(n: Node, m: Node, i: Id, q: Id)
    requires m.currentTerm < n.currentTerm && m.log == LogA && n.log == LogE
    requires q in n.peers && n.peers[q].nextIndex == 2
    ensures var req := BuildAppend(n, i, q);
            && !Consistent(m.log, req) && !DeadReq(req) && FollowerState(m, req) == StepDown(m, n.currentTerm)
            && BackUp(n.log, AppendAnswer(m, req)) == 1
  {
    assert LastOfTerm(n.log, 1, 3) == 0;
  }

  lemma WholeLog(n: Node, m: Node, i: Id, q: Id)
    requires m.currentTerm == n.currentTerm && m.role == Follower && m.log == LogA && n.log == LogE
    requires q in n.peers && n.peers[q].nextIndex == 1 && m.commitIndex == n.commitIndex == 0
    ensures HandleAppendReq(m, BuildAppend(n, i, q)) == m.(log := n.log)
  {
    assert n.log[0..] == n.log;
    assert [] + n.log == n.log;
  }

  // ----- the late answer and its consequences --------------------------------------------------------------------

  lemma DelayedRun(c: Cast) returns (p: Run)
    requires CastOk(c)
    ensures IsPath(p) && Init(p.states[0]) && p.states[0].policy == AsWritten && p.states[0].servers == c.servers
    ensures At(Last(p), c, FollowerA(c), Plain(4, c.e, LogA), LeaderE(c)) && DelayedAnswer(c) in Last(p).appendResps
  {
    hide IsPath, Next, Init, At;
    p := TermOne(c);
    p := TermTwo(c, p);
    p := TermThree(c, p);
    p := Replication(c, p);
    p := TermFour(c, p);
  }

  /** What the delayed answer makes a count: index 3, whose entry is of the current term. */
  lemma DelayedAnswerCounts(c: Cast)
    requires CastOk(c)
    ensures var n := FollowerA(c);
            && c.b in n.peers && IsMajorityIndex(RecordAppend(n, DelayedAnswer(c)), c.a, 3)
            && HandleAppendResp(n, DelayedAnswer(c), 3, true)
               == n.(peers := Matched(c.servers, c.a, Crowd(c), 3, 4), commitIndex := 3)
  {
    hide IsMajorityIndex;
    CrowdIsQuorum(c);
    RecordOfB(c);
    var m := RecordAppend(FollowerA(c), DelayedAnswer(c));
    assert m.peers == Matched(c.servers, c.a, Crowd(c), 3, 4);
    MatchedMajority(c.servers, c.a, m, Crowd(c), 4);
  }

  /** The servers that hold the first `k` entries of `log`. */
  function HoldersOf(s: State, log: seq<Entry>, k: nat): set<Id> {
    set i | i in s.nodes && Agree(s.nodes[i].log, log, k)
  }

  /** In every cluster of five or more there is a run that ends with a follower receiving an answer to its
      former leadership, on which the handler commits three entries that fewer than a quorum of servers
      hold. */
  lemma StaleAnswer(c: Cast) returns (r: Run, resp: AppendResp)
    requires CastOk(c)
    ensures IsAnyRun(r) && r.states[0].policy == AsWritten && Last(r).servers == c.servers && c.a in Last(r).nodes
    ensures var s, n := Last(r), Last(r).nodes[c.a];
            && resp in s.appendResps && resp.req.leader == c.a && resp.req.to in n.peers
            && n.role == Follower && resp.req.term == n.ledTerm < n.currentTerm
            && IsMajorityIndex(RecordAppend(n, resp), c.a, 3)
            && n.commitIndex == 0 && HandleAppendResp(n, resp, 3, true).commitIndex == 3
            && !IsQuorum(s.servers, HoldersOf(s, n.log, 3))
  {
    hide IsAnyRun, IsPath, IsMajorityIndex, HandleAppendResp, PeersOfA, Matched;
    r := DelayedRun(c);
    resp := DelayedAnswer(c);
    PathIsRun(r);
    DelayedAnswerCounts(c);
    var s := Last(r);
    assert LogA[..3][0] == NoOp(1) && LogE[..3][0] == NoOp(2);
    assert HoldersOf(s, LogE, 3) == {c.a, c.e} && |{c.a, c.e}| == 2;
  }

  lemma PathIsRun(r: Run)
    requires IsPath(r) && Init(r.states[0])
    ensures IsAnyRun(r)
  {
    hide Next, Init;
  }

  /** a, when it has taken the late answer and applied what it committed. */
  function MisledA(c: Cast): Node {
    Node(4, NOBODY, LogE, Follower, 3, 3, Matched(c.servers, c.a, Crowd(c), 3, 4), 3, {c.a} + Crowd(c), LogE)
  }

  lemma Misled(c: Cast, p: Run) returns (q: Run)
    requires CastOk(c) && IsPath(p) && DelayedAnswer(c) in Last(p).appendResps
    requires At(Last(p), c, FollowerA(c), Plain(4, c.e, LogA), LeaderE(c))
    ensures IsPath(q) && q.states[0] == p.states[0]
    ensures At(Last(q), c, MisledA(c), Plain(4, c.e, LogA), LeaderE(c))
  {
    hide IsPath, IsMajorityIndex, HandleAppendResp, PeersOfA, Matched;
    DelayedAnswerCounts(c);
    q := DoLateAnswer(p, c.a, DelayedAnswer(c), 3);
    q := ApplyThree(q, c.a, LogE);
    assert Last(q).nodes == Scene(c, MisledA(c), Plain(4, c.e, LogA), LeaderE(c));
  }

  /** A server that has committed at least three entries and applied none applies three. */
  lemma ApplyThree(p: Run, i: Id, log: seq<Entry>) returns (q: Run)
    requires IsPath(p) && i in Last(p).nodes && |log| == 3 && log <= Last(p).nodes[i].log
    requires var n := Last(p).nodes[i]; n.lastApplied == 0 && n.applied == [] && 3 <= n.commitIndex <= |n.log|
    ensures Continues(p, q, Last(p).nodes[i := Last(p).nodes[i].(lastApplied := 3, applied := log)])
  {
    hide IsPath;
    var n := Last(p).nodes[i];
    q := DoApply(p, i);
    q := DoApply(q, i);
    q := DoApply(q, i);
    assert [] + [n.log[0]] + [n.log[1]] + [n.log[2]] == log;
    assert Last(q).nodes[i] == n.(lastApplied := 3, applied := log);
    assert Last(q).nodes == Last(p).nodes[i := n.(lastApplied := 3, applied := log)];
  }

  /** A follower that lacks only the last entry takes it. */
  lemma TakesLast(n: Node, m: Node, i: Id, q: Id)
    requires m.role == Follower && m.currentTerm == n.currentTerm && m.commitIndex == n.commitIndex == 0
    requires |n.log| >= 2 && m.log == n.log[..|n.log| - 1] && TermsOk(n.log)
    requires q in n.peers && n.peers[q].nextIndex == |n.log|
    ensures var req := BuildAppend(n, i, q);
            && HandleAppendReq(m, req) == m.(log := n.log) && Whole(n, i, q, AppendAnswer(m, req))
            && AppendAnswer(m, req) == AppendResp(req, n.currentTerm, true, 0, 0)
  {
    var last := n.log[|n.log| - 1];
    assert n.log[|n.log| - 1..] == [last];
    assert m.log + [last] == n.log;
  }

  /** The follower part of the same for many. */
  lemma {:induction false} ReplicateAll(p: Run, i: Id, todo: set<Id>) returns (p': Run)
    requires IsPath(p) && Last(p).policy == AsWritten && i in Last(p).nodes && todo <= Last(p).nodes.Keys - {i}
    requires var s, n := Last(p), Last(p).nodes[i];
             && n.role == Leader && n.commitIndex == 0 && |n.log| >= 2 && TermsOk(n.log) && todo <= n.peers.Keys
             && (forall q | q in todo :: n.peers[q].nextIndex == |n.log| && OneBehind(s.nodes[q], n))
    ensures var s, n := Last(p), Last(p).nodes[i];
            && Continues(p, p', Caught(s.nodes, i, todo, n.peers))
            && (forall q | q in todo :: LastAnswer(n, i, q) in Last(p').appendResps && Whole(n, i, q, LastAnswer(n, i, q)))
    decreases |todo|
  {
    hide IsPath, Caught, OneBehind, Whole, LastAnswer, BuildAppend, HandleAppendReq, AppendAnswer;
    var s, n := Last(p), Last(p).nodes[i];
    if todo == {} {
      p' := p;
      CaughtNone(s.nodes, i);
    } else {
      var q :| q in todo;
      assert OneBehind(s.nodes[q], n);
      LastSent(n, s.nodes[q], i, q);
      var p1 := DoReplicate(p, i, q);
      CaughtQ(s.nodes, i, q);
      p' := ReplicateAll(p1, i, todo - {q});
      CaughtMore(s.nodes, i, q, n.peers, todo, n.peers);
    }
  }

  predicate OneBehind(m: Node, n: Node) {
    && m.role == Follower && m.currentTerm == n.currentTerm && m.commitIndex == n.commitIndex == 0
    && |n.log| >= 2 && m.log == n.log[..|n.log| - 1]
  }

  function LastAnswer(n: Node, i: Id, q: Id): AppendResp {
    if q in n.peers && n.peers[q].nextIndex >= 1 then AppendResp(BuildAppend(n, i, q), n.currentTerm, true, 0, 0)
    else AppendResp(AppendReq(0, i, q, 0, 0, [], 0), 0, false, 0, 0)
  }

  lemma LastSent(n: Node, m: Node, i: Id, q: Id)
    requires OneBehind(m, n) && TermsOk(n.log) && q in n.peers && n.peers[q].nextIndex == |n.log|
    ensures var req := BuildAppend(n, i, q);
            && HandleAppendReq(m, req) == m.(log := n.log) && AppendAnswer(m, req) == LastAnswer(n, i, q)
            && Whole(n, i, q, LastAnswer(n, i, q))
  {
    hide BuildAppend, HandleAppendReq, AppendAnswer, Whole;
    TakesLast(n, m, i, q);
  }

  lemma CaughtQ(nodes: map<Id, Node>, i: Id, q: Id)
    requires i in nodes && q in nodes && i != q
    ensures nodes[q := nodes[q].(log := nodes[i].log)] == Caught(nodes, i, {q}, nodes[i].peers)
  {
  }

  /** The leader of `n0` with the answers of `matched`. */
  function Answered(servers: set<Id>, i: Id, n0: Node, matched: set<Id>): Node {
    n0.(peers := Matched(servers, i, matched, |n0.log|, |n0.log|), commitIndex := Reached(servers, matched, |n0.log|))
  }

  /** The leader takes the answers one by one; its commit index moves when they are enough. */
  lemma {:induction false} AnswerAll(p: Run, i: Id, n0: Node, todo: set<Id>, matched: set<Id>) returns (p': Run)
    requires IsPath(p) && i in Last(p).nodes && i in Last(p).servers
    requires n0.role == Leader && |n0.log| >= 1 && LastTerm(n0.log) == n0.currentTerm
    requires Last(p).nodes[i] == Answered(Last(p).servers, i, n0, matched)
    requires todo <= Last(p).servers - {i} - matched && matched <= Last(p).servers - {i}
    requires forall q | q in todo :: LastAnswer(n0, i, q) in Last(p).appendResps && Whole(n0, i, q, LastAnswer(n0, i, q))
    ensures Continues(p, p', Last(p).nodes[i := Answered(Last(p).servers, i, n0, matched + todo)])
    decreases |todo|
  {
    hide IsPath, Answered, Whole, LastAnswer;
    var s := Last(p);
    if todo == {} {
      p' := p;
      assert matched + {} == matched;
      assert s.nodes[i := s.nodes[i]] == s.nodes;
    } else {
      var q :| q in todo;
      var p1 := AnswerOne(p, i, n0, q, matched);
      p' := AnswerAll(p1, i, n0, todo - {q}, matched + {q});
      assert matched + {q} + (todo - {q}) == matched + todo;
    }
  }

  lemma AnswerOne(p: Run, i: Id, n0: Node, q: Id, matched: set<Id>) returns (p': Run)
    requires IsPath(p) && i in Last(p).nodes && i in Last(p).servers
    requires n0.role == Leader && |n0.log| >= 1 && LastTerm(n0.log) == n0.currentTerm
    requires Last(p).nodes[i] == Answered(Last(p).servers, i, n0, matched)
    requires q in Last(p).servers - {i} - matched && matched <= Last(p).servers - {i}
    requires LastAnswer(n0, i, q) in Last(p).appendResps && Whole(n0, i, q, LastAnswer(n0, i, q))
    ensures Continues(p, p', Last(p).nodes[i := Answered(Last(p).servers, i, n0, matched + {q})])
  {
    hide IsPath, Whole, LastAnswer, Matched, AdvanceCommit;
    var s, n := Last(p), Last(p).nodes[i];
    MatchedDomain(s.servers, i, matched, |n.log|, |n.log|);
    SameWhole(n0, n, i, q, LastAnswer(n0, i, q));
    p' := AnswerWhole(p, i, q, LastAnswer(n0, i, q), matched, |n.log|);
    CountedAgain(s.servers, i, n0, q, matched);
  }

  lemma CountedAgain(servers: set<Id>, i: Id, n0: Node, q: Id, matched: set<Id>)
    requires |n0.log| >= 1 && LastTerm(n0.log) == n0.currentTerm && q !in matched
    ensures var n, len := Answered(servers, i, n0, matched), |n0.log|;
            AdvanceCommit(n.(peers := Matched(servers, i, matched + {q}, len, len)), Reached(servers, matched + {q}, len))
            == Answered(servers, i, n0, matched + {q})
  {
    hide Matched;
    assert |matched + {q}| == |matched| + 1;
  }

  lemma MatchedDomain(servers: set<Id>, i: Id, matched: set<Id>, len: nat, next: nat)
    ensures Matched(servers, i, matched, len, next).Keys == servers - {i}
  {
  }

  lemma SameWhole(n: Node, n': Node, i: Id, q: Id, resp: AppendResp)
    requires Whole(n, i, q, resp) && n'.currentTerm == n.currentTerm && n'.log == n.log
    ensures Whole(n', i, q, resp)
  {
  }

  /** b, when the crowd has elected it in term 5 and it has stored its no-op. */
  function LeaderB(c: Cast): Node {
    Led(5, c.b, LogB, Matched(c.servers, c.b, {}, 4, 4), Crowd(c))
  }

  function SceneB(c: Cast, a: Node, b: Node, v: Node, e: Node): map<Id, Node> {
    map i | i in c.servers :: if i == c.a then a else if i == c.e then e else if i == c.b then b else v
  }

  /** The crowd, which holds nothing newer, elects b in term 5. */
  lemma TermFive(c: Cast, p: Run, a: Node, e: Node) returns (q: Run)
    requires CastOk(c) && IsPath(p) && At(Last(p), c, a, Plain(4, c.e, LogA), e)
    ensures IsPath(q) && q.states[0] == p.states[0] && Last(q).policy == AsWritten && Last(q).servers == c.servers
    ensures Last(q).nodes == SceneB(c, a, LeaderB(c), Plain(5, c.b, LogA), e)
  {
    hide IsPath, IsQuorum, WouldVote;
    CrowdIsQuorum(c);
    var v, others := Plain(4, c.e, LogA), Crowd(c) - {c.b};
    CrowdVotes(c, v);
    q := Elect(p, c.b, others);
    ElectedB(c, a, v, e);
    q := DoAppend(q, c.b, []);
    AppendedB(c, a, e);
  }

  lemma CrowdVotes(c: Cast, v: Node)
    requires v == Plain(4, c.e, LogA)
    ensures WouldVote(v, v, 5)
  {
  }

  lemma ElectedB(c: Cast, a: Node, v: Node, e: Node)
    requires CastOk(c) && v == Plain(4, c.e, LogA)
    ensures c.b in Scene(c, a, v, e)
    ensures Elected(Scene(c, a, v, e), c.b, Crowd(c) - {c.b}, c.servers)
         == SceneB(c, a, Led(5, c.b, LogA, Matched(c.servers, c.b, {}, 3, 4), Crowd(c)), Plain(5, c.b, LogA), e)
  {
    hide Winner, Matched, IsQuorum;
    CrowdIsQuorum(c);
    WinnerLeads(v, c.b, Crowd(c) - {c.b}, c.servers);
  }

  lemma AppendedB(c: Cast, a: Node, e: Node)
    requires CastOk(c)
    ensures var b, v := Led(5, c.b, LogA, Matched(c.servers, c.b, {}, 3, 4), Crowd(c)), Plain(5, c.b, LogA);
            && c.b in SceneB(c, a, b, v, e)
            && SceneB(c, a, b, v, e)[c.b := AppendEntry(b, [])] == SceneB(c, a, LeaderB(c), v, e)
  {
    var b := Led(5, c.b, LogA, Matched(c.servers, c.b, {}, 3, 4), Crowd(c));
    assert LogA + [NoOp(5)] == LogB;
    assert Matched(c.servers, c.b, {}, 3, 4) == Matched(c.servers, c.b, {}, 4, 4);
    assert AppendEntry(b, []) == LeaderB(c);
  }

  /** b commits its log with the crowd, and applies its first three entries. */
  lemma CommitFive(c: Cast, p: Run, a: Node, e: Node) returns (q: Run)
    requires CastOk(c) && IsPath(p) && Last(p).policy == AsWritten && Last(p).servers == c.servers
    requires Last(p).nodes == SceneB(c, a, LeaderB(c), Plain(5, c.b, LogA), e)
    ensures IsPath(q) && q.states[0] == p.states[0]
    ensures {c.a, c.b} <= Last(q).nodes.Keys && Last(q).nodes[c.a] == a && Last(q).nodes[c.b].applied == LogA
  {
    hide IsPath, LastAnswer, Whole, Matched;
    CrowdIsQuorum(c);
    var n, others := LeaderB(c), Crowd(c) - {c.b};
    MatchedDomain(c.servers, c.b, {}, 4, 4);
    RecordsOfB(c);
    assert LogB[..3] == LogA;
    q := ReplicateAll(p, c.b, others);
    assert Answered(c.servers, c.b, n, {}) == n;
    q := AnswerAll(q, c.b, n, others, {});
    assert {} + others == others;
    q := ApplyThree(q, c.b, LogA);
  }

  lemma RecordsOfB(c: Cast)
    ensures forall p | p in Matched(c.servers, c.b, {}, 4, 4) :: Matched(c.servers, c.b, {}, 4, 4)[p] == Peer(4, 0)
  {
  }

  /** The commands the state machine was handed: `applyCommitted` skips no-ops. */
  function Handed(applied: seq<Entry>): seq<Bytes> {
    if applied == [] then []
    else (if applied[0].data == [] then [] else [applied[0].data]) + Handed(applied[1..])
  }

  lemma HandedCons(e: Entry, rest: seq<Entry>)
    ensures Handed([e] + rest) == (if e.data == [] then [] else [e.data]) + Handed(rest)
  {
    assert ([e] + rest)[1..] == rest;
  }

  lemma WhatTheyWereHanded()
    ensures Handed(LogE) == [X4.data] && Handed(LogA) == [X1.data, Y1.data]
  {
    assert LogE == [NoOp(2)] + ([NoOp(4)] + ([X4] + []));
    HandedCons(NoOp(2), [NoOp(4)] + ([X4] + []));
    HandedCons(NoOp(4), [X4] + []);
    HandedCons(X4, []);
    assert LogA == [NoOp(1)] + ([X1] + ([Y1] + []));
    HandedCons(NoOp(1), [X1] + ([Y1] + []));
    HandedCons(X1, [Y1] + []);
    HandedCons(Y1, []);
  }

  /** With the handler as written, in every cluster of five or more there is a run at whose end two servers
      have applied different entries at one index, and handed different commands to their state machines. */
  lemma LateAnswersDiverge(c: Cast) returns (r: Run)
    requires CastOk(c)
    ensures IsAnyRun(r) && r.states[0].policy == AsWritten && r.states[0].servers == c.servers
    ensures {c.a, c.b} <= Last(r).nodes.Keys
    ensures var a, b := Last(r).nodes[c.a].applied, Last(r).nodes[c.b].applied;
            && |a| == |b| == 3 && (forall x | 0 <= x < 3 :: a[x] != b[x])
            && Handed(a) == [X4.data] && Handed(b) == [X1.data, Y1.data] && X4.data != X1.data
  {
    hide IsAnyRun, IsPath, Handed, LeaderE, LeaderB, MisledA;
    r := DelayedRun(c);
    r := Misled(c, r);
    r := TermFive(c, r, MisledA(c), LeaderE(c));
    r := CommitFive(c, r, MisledA(c), LeaderE(c));
    PathIsRun(r);
    WhatTheyWereHanded();
    AppliedByA(c);
  }

  lemma AppliedByA(c: Cast)
    ensures MisledA(c).applied == LogE
  {
  }

  // ----- the exact condition -----------------------------------------------------------------------------------------

  predicate AppliedAgree(m: Node, n: Node) {
    forall x | 0 <= x < |m.applied| && x < |n.applied| :: m.applied[x] == n.applied[x]
  }

  /** State machine safety of one run. */
  ghost predicate Agreement(r: Run) {
    forall j: nat, k: nat, a, b | j < |r.states| && k < |r.states| && a in r.states[j].nodes && b in r.states[k].nodes ::
      AppliedAgree(r.states[j].nodes[a], r.states[k].nodes[b])
  }

  /** A run of this kind of cluster. */
  ghost predicate IsRunOf(r: Run, policy: Policy, servers: set<Id>) {
    IsAnyRun(r) && r.states[0].policy == policy && r.states[0].servers == servers
  }

  lemma SafeRunAgrees(r: Run)
    requires IsRun(r)
    ensures Agreement(r)
  {
    hide IsRun;
    forall j: nat, k: nat, a, b | j < |r.states| && k < |r.states| && a in r.states[j].nodes && b in r.states[k].nodes
      ensures AppliedAgree(r.states[j].nodes[a], r.states[k].nodes[b])
    {
      forall x | 0 <= x < |r.states[j].nodes[a].applied| && x < |r.states[k].nodes[b].applied|
        ensures r.states[j].nodes[a].applied[x] == r.states[k].nodes[b].applied[x]
      {
        StateMachineSafety(r, j, k, a, b, x);
      }
    }
  }

  /** Exactly when state machine safety holds of every run: if late answers are checked, or the no-op comes
      before the first request, or there are at most four servers. */
  lemma SafetyExactly(policy: Policy, servers: set<Id>)
    requires NOBODY !in servers
    ensures (forall r | IsRunOf(r, policy, servers) :: Agreement(r)) <==> policy != AsWritten || |servers| <= 4
  {
    hide Agreement, Init, Next;
    if policy != AsWritten || |servers| <= 4 {
      forall r | IsRunOf(r, policy, servers) ensures Agreement(r) {
        SafeRunAgrees(r);
      }
    } else {
      var c := SomeCast(servers);
      var r := LateAnswersDiverge(c);
      Disagreement(r, c.a, c.b);
      assert IsRunOf(r, policy, servers);
    }
  }

  lemma Disagreement(r: Run, a: Id, b: Id)
    requires r.states != [] && {a, b} <= Last(r).nodes.Keys
    requires |Last(r).nodes[a].applied| == |Last(r).nodes[b].applied| == 3
    requires Last(r).nodes[a].applied[0] != Last(r).nodes[b].applied[0]
    ensures !Agreement(r)
  {
    var k := |r.states| - 1;
    assert !AppliedAgree(r.states[k].nodes[a], r.states[k].nodes[b]);
  }

  lemma SomeCast(servers: set<Id>) returns (c: Cast)
    requires |servers| >= 5 && NOBODY !in servers
    ensures CastOk(c) && c.servers == servers
  {
    var a :| a in servers;
    assert |servers - {a}| >= 4;
    var b :| b in servers - {a};
    assert |servers - {a} - {b}| >= 3;
    var e :| e in servers - {a} - {b};
    c := Cast(servers, a, b, e);
  }
}
