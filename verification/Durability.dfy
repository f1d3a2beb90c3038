/** Crashes inside a handler.  RaftNode.dfy proves which states the disk goes through while a handler
    runs; here every one of them is shown to be a restart the runs of Cluster.dfy account for. */
module Durability {
  import opened Raft
  import opened Cluster
  import opened RaftNodes
  import opened RaftInvariant
  import opened RaftReceive
  import opened RaftSafety

  /** A server that restarts from `d` in the middle of a step continues the run. */
  lemma HalfwayIsCrash(s: State, i: Id, d: Disk) returns (step: Step)
    requires i in s.nodes && (HalfPersisted(s.nodes[i], d) || SteppedDown(s.nodes[i], d))
    ensures Next(s, s.(nodes := s.nodes[i := Reboot(d)]), step)
  {
    step := if HalfPersisted(s.nodes[i], d) then Crash(i, d.term) else CrashCleared(i, d.term);
  }

  lemma Continue(r: Run, step: Step, s': State) returns (r': Run)
    requires IsRun(r) && Next(r.states[|r.steps|], s', step)
    ensures IsRun(r') && r'.states == r.states + [s']
  {
    hide Next, Init;
    r' := Run(r.states + [s'], r.steps + [step]);
  }

  /** Crash at any write of any step: the run goes on with the server restarted from what is on disk, and
      nobody else changed. */
  lemma CrashAtAnyWrite(r: Run, step: Step, s': State, i: Id, d: Disk) returns (r': Run)
    requires IsRun(r) && Next(r.states[|r.steps|], s', step) && i in r.states[|r.steps|].nodes && i in s'.nodes
    requires s'.nodes == r.states[|r.steps|].nodes[i := s'.nodes[i]]
    requires Survivable(r.states[|r.steps|].nodes[i], s'.nodes[i], [d])
    ensures IsRun(r') && r.states <= r'.states && r'.states != []
    ensures Last(r').nodes == r.states[|r.steps|].nodes[i := Reboot(d)]
  {
    hide IsRun, Next;
    LastOfRun(r);
    var s := r.states[|r.steps|];
    assert [d][0] == d;
    if d == DiskOf(s'.nodes[i]) {
      var crash := HalfwayIsCrash(s', i, d);
      r' := Continue(r, step, s');
      LastOfRun(r');
      r' := Continue(r', crash, s'.(nodes := s'.nodes[i := Reboot(d)]));
    } else {
      var crash := HalfwayIsCrash(s, i, d);
      r' := Continue(r, crash, s.(nodes := s.nodes[i := Reboot(d)]));
    }
  }

  /** The same for a request that is handled in a run, where the log may be cut as well. */
  lemma CrashAtAnyWriteOfRequest(r: Run, i: Id, req: AppendReq, d: Disk) returns (r': Run)
    requires IsRun(r) && i in r.states[|r.steps|].nodes && req in r.states[|r.steps|].appendReqs && req.to == i
    requires var n := r.states[|r.steps|].nodes[i]; SurvivableIn(n, HandleAppendReq(n, req), req, [d])
    ensures IsRun(r') && r.states <= r'.states && r'.states != []
    ensures Last(r').nodes == r.states[|r.steps|].nodes[i := Reboot(d)]
  {
    hide IsRun, HandleAppendReq, AppendAnswer, Accepts;
    LastOfRun(r);
    var s, n := r.states[|r.steps|], r.states[|r.steps|].nodes[i];
    assert [d][0] == d;
    if cut: nat :| CutDisk(n, req, d, cut) {
      r' := Continue(r, CrashCut(i, req, cut), s.(nodes := s.nodes[i := Reboot(d)]));
    } else {
      var s' := s.(nodes := s.nodes[i := HandleAppendReq(n, req)], appendResps := s.appendResps + {AppendAnswer(n, req)},
                   h := if Accepts(n, req) then RecordAck(s.h, i, req) else s.h);
      assert ReceiveStep(s, s', i, req);
      assert Survivable(n, s'.nodes[i], [d]);
      r' := CrashAtAnyWrite(r, Receive(i, req), s', i, d);
    }
  }

  /** The case the handler's promise leaves open, a leader hearing another leader of its own term, does
      not occur in a run. */
  lemma NoRivalRequest(r: Run, k: nat, i: Id, req: AppendReq)
    requires IsRun(r) && k < |r.states| && i in r.states[k].nodes && req in r.states[k].appendReqs && req.to == i
    ensures !(r.states[k].nodes[i].role == Leader && req.term == r.states[k].nodes[i].currentTerm)
  {
    hide IsRun, HistoryOk, NodesOk, WinnersOk, BallotsOk, BallotNodesOk, VoteMsgsOk, AppendReqOk, AppendRespOk;
    RunInv(r, k);
    NotTheLeader(r.states[k], i, req);
  }
}
