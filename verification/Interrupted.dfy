/** Why winning an election and becoming leader must not be interrupted.

    `runCandidate` counts the last vote and sets the role in two locked sections.  In between, an answer to an
    earlier leadership may make the server enter a later term; if role and term are not looked at again, it
    then leads a term it did not win.  In the runs of Cluster.dfy `WinStep` looks at both and sets the role in
    one step, and every term has one leader (`RaftSafety.ElectionSafety`).  Here is the run without that. */
module Interrupted {
  import opened Raft
  import opened Cluster
  import opened StaleAnswers

  lemma DoSend(p: Run, i: Id, q: Id) returns (p': Run)
    requires IsPath(p) && i in Last(p).nodes && Last(p).nodes[i].role == Leader && MaySend(Last(p), i)
    requires q in Last(p).nodes[i].peers && Last(p).nodes[i].peers[q].nextIndex >= 1
    ensures Continues(p, p', Last(p).nodes) && BuildAppend(Last(p).nodes[i], i, q) in Last(p').appendReqs
  {
    hide IsPath, BuildAppend, MaySend;
    var s := Last(p);
    p' := Extend(p, Send(i, q), s.(appendReqs := s.appendReqs + {BuildAppend(s.nodes[i], i, q)}));
  }

  /** A request of an earlier term is answered with the later one, and changes nothing. */
  lemma DoRefuse(p: Run, q: Id, req: AppendReq) returns (p': Run)
    requires IsPath(p) && q in Last(p).nodes && req in Last(p).appendReqs && req.to == q
    requires req.term < Last(p).nodes[q].currentTerm
    ensures Continues(p, p', Last(p).nodes)
    ensures AppendResp(req, Last(p).nodes[q].currentTerm, false, 0, 0) in Last(p').appendResps
  {
    hide IsPath;
    var s, n := Last(p), Last(p).nodes[q];
    assert s.nodes[q := n] == s.nodes;
    p' := Extend(p, Receive(q, req), s.(appendResps := s.appendResps + {AppendResp(req, n.currentTerm, false, 0, 0)}));
  }

  /** A late answer of a higher term. */
  lemma DoLateHigher(p: Run, i: Id, resp: AppendResp) returns (p': Run)
    requires IsPath(p) && i in Last(p).nodes && resp in Last(p).appendResps && resp.req.leader == i
    requires Last(p).nodes[i].ledTerm > 0 && resp.term > Last(p).nodes[i].currentTerm
    ensures IsPath(p') && p'.states[0] == p.states[0] && p.states <= p'.states
    ensures |p'.steps| == |p.states| && |p'.states| == |p.states| + 1
    ensures p'.steps[|p.states| - 1] == LateAnswer(i, resp, 0, false)
    ensures Last(p') == Last(p).(nodes := Last(p).nodes[i := StepDown(Last(p).nodes[i], resp.term)])
  {
    var s := Last(p);
    var s' := s.(nodes := s.nodes[i := StepDown(s.nodes[i], resp.term)]);
    var step := LateAnswer(i, resp, 0, false);
    assert Next(s, s', step);
    hide Next;
    p' := Run(p.states + [s'], p.steps + [step]);
  }

  // ----- the run -----------------------------------------------------------------------------------------------

  /** Servers a and e, and all others. */
  predicate CrewOk(servers: set<Id>, a: Id, e: Id) {
    |servers| >= 3 && NOBODY !in servers && a in servers && e in servers && a != e
  }

  function Others(servers: set<Id>, a: Id, e: Id): set<Id> {
    servers - {a, e}
  }

  lemma OthersElect(servers: set<Id>, a: Id, e: Id)
    requires CrewOk(servers, a, e)
    ensures IsQuorum(servers, {a} + Others(servers, a, e)) && IsQuorum(servers, {e} + Others(servers, a, e))
  {
    assert servers - {e} == {a} + Others(servers, a, e) && |servers - {e}| == |servers| - 1;
    assert servers - {a} == {e} + Others(servers, a, e) && |servers - {a}| == |servers| - 1;
  }

  function Group(servers: set<Id>, a: Id, e: Id, na: Node, nv: Node, ne: Node): map<Id, Node> {
    map i | i in servers :: if i == a then na else if i == e then ne else nv
  }

  ghost predicate Now(s: State, policy: Policy, servers: set<Id>, a: Id, e: Id, na: Node, nv: Node, ne: Node) {
    s.policy == policy && s.servers == servers && s.nodes == Group(servers, a, e, na, nv, ne)
  }

  /** a leads term 1, stores its no-op, and sends it to e; the request is delayed. */
  function FirstLeader(servers: set<Id>, a: Id, e: Id): Node {
    Led(1, a, [NoOp(1)], Matched(servers, a, {}, 0, 1), {a} + Others(servers, a, e))
  }

  lemma Beginning(policy: Policy, servers: set<Id>, a: Id, e: Id) returns (p: Run)
    requires CrewOk(servers, a, e)
    ensures IsPath(p) && Init(p.states[0]) && p.states[0].policy == policy && p.states[0].servers == servers
    ensures Now(Last(p), policy, servers, a, e, Plain(0, NOBODY, []), Plain(0, NOBODY, []), Plain(0, NOBODY, []))
  {
    hide Next;
    p := Run([State(policy, servers, map i | i in servers :: Restart(0, NOBODY, []), {}, {}, {}, {},
                    History(map[], map[], map[], {}, {}, []))], []);
  }

  lemma ElectedInTermOne(policy: Policy, servers: set<Id>, a: Id, e: Id) returns (p: Run)
    requires CrewOk(servers, a, e)
    ensures IsPath(p) && Init(p.states[0]) && p.states[0].policy == policy && p.states[0].servers == servers
    ensures Now(Last(p), policy, servers, a, e,
                FirstLeader(servers, a, e).(log := []), Plain(1, a, []), Plain(0, NOBODY, []))
  {
    hide IsPath, Init, IsQuorum, Winner, Matched, WouldVote;
    var n := Plain(0, NOBODY, []);
    OthersElect(servers, a, e);
    WinnerLeads(n, a, Others(servers, a, e), servers);
    EmptyLogsVote(n);
    p := Beginning(policy, servers, a, e);
    p := Elect(p, a, Others(servers, a, e));
    ElectedGroup(servers, a, e, n);
  }

  lemma ElectedGroup(servers: set<Id>, a: Id, e: Id, n: Node)
    requires CrewOk(servers, a, e)
    ensures a in Group(servers, a, e, n, n, n)
    ensures Elected(Group(servers, a, e, n, n, n), a, Others(servers, a, e), servers)
         == Group(servers, a, e, Winner(n, a, Others(servers, a, e), servers), Voter(n, a, n.currentTerm + 1), n)
  {
    hide Winner, Voter;
  }

  lemma EmptyLogsVote(n: Node)
    requires n.log == [] && n.currentTerm == 0
    ensures WouldVote(n, n, 1)
  {
  }

  lemma SentInTermOne(policy: Policy, servers: set<Id>, a: Id, e: Id) returns (p: Run)
    requires CrewOk(servers, a, e)
    ensures IsPath(p) && Init(p.states[0]) && p.states[0].policy == policy && p.states[0].servers == servers
    ensures Now(Last(p), policy, servers, a, e, FirstLeader(servers, a, e), Plain(1, a, []), Plain(0, NOBODY, []))
    ensures AppendReq(1, a, e, 0, 0, [NoOp(1)], 0) in Last(p).appendReqs
  {
    hide IsPath, Matched, Init;
    p := ElectedInTermOne(policy, servers, a, e);
    p := DoAppend(p, a, []);
    assert [] + [NoOp(1)] == [NoOp(1)];
    assert Last(p).nodes == Group(servers, a, e, FirstLeader(servers, a, e), Plain(1, a, []), Plain(0, NOBODY, []));
    FirstRequest(servers, a, e);
    p := DoSend(p, a, e);
  }

  lemma FirstRequest(servers: set<Id>, a: Id, e: Id)
    requires CrewOk(servers, a, e)
    ensures var n := FirstLeader(servers, a, e);
            && e in n.peers && n.peers[e].nextIndex >= 1 && BuildAppend(n, a, e) == AppendReq(1, a, e, 0, 0, [NoOp(1)], 0)
  {
    assert [NoOp(1)][0..] == [NoOp(1)];
  }

  /** The candidate a, with the votes of all others and its own counted. */
  function Won(servers: set<Id>, a: Id, e: Id): Node {
    Node(3, a, [NoOp(1)], Candidate, 0, 0, Matched(servers, a, {}, 0, 1), 1, {a} + Others(servers, a, e), [])
  }

  /** e, when it stands for the second time. */
  function Standing(e: Id): Node {
    Node(2, e, [], Candidate, 0, 0, map[], 0, {e}, [])
  }

  /** e stands twice and is heard by a, which gives up. */
  lemma GivesUp(policy: Policy, servers: set<Id>, a: Id, e: Id, p: Run) returns (q: Run)
    requires CrewOk(servers, a, e) && IsPath(p)
    requires Now(Last(p), policy, servers, a, e, FirstLeader(servers, a, e), Plain(1, a, []), Plain(0, NOBODY, []))
    ensures IsPath(q) && q.states[0] == p.states[0] && Last(p).appendReqs <= Last(q).appendReqs
    ensures Now(Last(q), policy, servers, a, e, StepDown(FirstLeader(servers, a, e), 2), Plain(1, a, []), Standing(e))
  {
    hide IsPath, Matched;
    q := DoTimeout(p, e);
    q := DoTimeout(q, e);
    q := DoVote(q, a, VoteReq(2, e, 0, 0));
    assert Last(q).nodes == Group(servers, a, e, StepDown(FirstLeader(servers, a, e), 2), Plain(1, a, []), Standing(e));
  }

  /** Then a stands, and counts the votes of the others. */
  lemma WonTermThree(policy: Policy, servers: set<Id>, a: Id, e: Id, p: Run) returns (q: Run)
    requires CrewOk(servers, a, e) && IsPath(p)
    requires Now(Last(p), policy, servers, a, e, StepDown(FirstLeader(servers, a, e), 2), Plain(1, a, []), Standing(e))
    ensures IsPath(q) && q.states[0] == p.states[0] && Last(p).appendReqs <= Last(q).appendReqs
    ensures Now(Last(q), policy, servers, a, e, Won(servers, a, e), Plain(3, a, []), Standing(e))
  {
    hide IsPath, Matched;
    q := DoTimeout(p, a);
    q := CollectVotes(q, a, Others(servers, a, e));
    assert Last(q).nodes == Group(servers, a, e, Won(servers, a, e), Plain(3, a, []), Standing(e));
  }

  /** e leads term 4 by the votes of the others, which have left a for it. */
  lemma RivalInTermFour(policy: Policy, servers: set<Id>, a: Id, e: Id, p: Run) returns (q: Run)
    requires CrewOk(servers, a, e) && IsPath(p)
    requires Now(Last(p), policy, servers, a, e, Won(servers, a, e), Plain(3, a, []), Standing(e))
    ensures IsPath(q) && q.states[0] == p.states[0] && Last(p).appendReqs <= Last(q).appendReqs
    ensures a in Last(q).nodes && Last(q).nodes[a] == Won(servers, a, e) && Last(q).servers == servers
    ensures e in Last(q).nodes && Last(q).nodes[e].role == Leader && Last(q).nodes[e].currentTerm == 4
  {
    hide IsPath, IsQuorum;
    OthersElect(servers, a, e);
    q := DoTimeout(p, e);
    q := Elect(q, e, Others(servers, a, e));
  }

  /** In every cluster of three or more there is a run whose last step, an answer to an earlier leadership,
      reaches a candidate that has just counted its last vote, and moves it to a term another server leads.
      Setting its role to leader now, as `runCandidate` does, would give that term two leaders. */
  lemma InterruptedWin(policy: Policy, servers: set<Id>, a: Id, e: Id) returns (r: Run)
    requires CrewOk(servers, a, e)
    ensures IsAnyRun(r) && r.states[0].policy == policy && r.states[0].servers == servers && |r.steps| >= 1
    ensures var s, s', step := r.states[|r.steps| - 1], Last(r), r.steps[|r.steps| - 1];
            && a in s.nodes && s.nodes[a].role == Candidate && IsQuorum(s.servers, s.nodes[a].votes)
            && step.LateAnswer? && step.i == a
            && a in s'.nodes && e in s'.nodes && a != e && s'.nodes[e].role == Leader
            && BecomeLeader(s'.nodes[a], servers - {a}).role == Leader
            && BecomeLeader(s'.nodes[a], servers - {a}).currentTerm == s'.nodes[e].currentTerm
  {
    hide IsPath, IsAnyRun, IsQuorum;
    OthersElect(servers, a, e);
    var req := AppendReq(1, a, e, 0, 0, [NoOp(1)], 0);
    r := SentInTermOne(policy, servers, a, e);
    r := GivesUp(policy, servers, a, e, r);
    r := WonTermThree(policy, servers, a, e, r);
    r := RivalInTermFour(policy, servers, a, e, r);
    r := DoRefuse(r, e, req);
    var before := Last(r);
    r := DoLateHigher(r, a, AppendResp(req, 4, false, 0, 0));
    assert r.states[|r.steps| - 1] == before;
    PathIsRun(r);
  }
}
