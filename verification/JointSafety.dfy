/** What every client of the whole system can rely on, over every joint run.

    The proof follows a run with a session of Collaboration.dfy whose server commits what the cluster
    commits: its document is that of the committed log, and every replica's document is a past of it.
    `slots` records where each submission was appended, so that none is committed twice. */
module JointSafety {
  import R = Raft
  import C = Cluster
  import I = RaftInvariant
  import T = RaftLate
  import S = RaftSafety
  import L = ApplyLoops
  import opened Changesets
  import opened Documents
  import opened Clients
  import K = Collaboration
  import opened EndToEnd
  import opened JointRuns

  // ----- where the submissions are -----------------------------------------------------------------------

  datatype Slot = Slot(term: nat, index: nat)

  type Slots = map<Edit, Slot>

  /** The entry at position `x` is a no-op, or the submission that was appended there. */
  predicate SlotOk(c: Setup, slots: Slots, entry: R.Entry, x: nat) {
    entry.data == []
    || (c.decode(entry.data).Command? && var e := c.decode(entry.data).submission;
                                         e in slots && slots[e] == Slot(entry.term, x))
  }

  predicate LogSlots(c: Setup, slots: Slots, log: seq<R.Entry>) {
    forall x | 0 <= x < |log| :: SlotOk(c, slots, log[x], x)
  }

  ghost predicate SlotsOk(c: Setup, slots: Slots, h: C.History) {
    forall t | t in h.logs :: LogSlots(c, slots, h.logs[t])
  }

  predicate InSlots(slots: Slots, es: seq<Edit>, n: nat) {
    forall i | 0 <= i < |es| :: es[i] in slots && slots[es[i]].index < n
  }

  predicate NoneTwice(es: seq<Edit>) {
    forall i, k | 0 <= i < k < |es| :: es[i] != es[k]
  }

  /** A log whose entries are in their slots holds each submission once. */
  lemma {:induction false} CommandsDistinct(c: Setup, slots: Slots, log: seq<R.Entry>)
    requires LogSlots(c, slots, log)
    ensures InSlots(slots, Commands(c.decode, log), |log|) && NoneTwice(Commands(c.decode, log))
    decreases |log|
  {
    if log != [] {
      var front, last := log[..|log| - 1], log[|log| - 1];
      assert SlotOk(c, slots, last, |log| - 1);
      forall x | 0 <= x < |front| ensures SlotOk(c, slots, front[x], x) {
        assert front[x] == log[x];
      }
      CommandsDistinct(c, slots, front);
    }
  }

  lemma WinSlots(c: Setup, slots: Slots, s: C.State, s': C.State, i: R.Id)
    requires I.Inv(s) && C.WinStep(s, s', i) && SlotsOk(c, slots, s.h)
    ensures SlotsOk(c, slots, s'.h)
  {
    hide T.Safe, I.Inv, SlotOk, I.NodeOk;
    var log := s.nodes[i].log;
    S.LeaderInOrder(s, i);
    NodeLogOk(s, i);
    forall x | 0 <= x < |log| ensures SlotOk(c, slots, log[x], x) {
      assert I.EntryOk(s.h, log, x);
      var big := s.h.logs[log[x].term];
      assert LogSlots(c, slots, big);
      assert log[..x + 1][x] == big[..x + 1][x];
    }
  }

  lemma NodeLogOk(s: C.State, i: R.Id)
    requires i in s.nodes && I.NodeOk(s.servers, s.h, i, s.nodes[i])
    ensures I.LogOk(s.h, s.nodes[i].log, s.nodes[i].currentTerm)
    ensures s.nodes[i].role == R.Leader ==>
              s.nodes[i].currentTerm in s.h.logs && s.nodes[i].log == s.h.logs[s.nodes[i].currentTerm]
  {
  }

  /** An appended no-op, or an appended submission that has no slot yet. */
  lemma AppendSlots(c: Setup, slots: Slots, slots': Slots, s: C.State, s': C.State, i: R.Id, data: R.Bytes)
    requires I.Inv(s) && C.AppendStep(s, s', i, data) && SlotsOk(c, slots, s.h)
    requires forall e | e in slots :: e in slots' && slots'[e] == slots[e]
    requires SlotOk(c, slots', R.Entry(s.nodes[i].currentTerm, data), |s.nodes[i].log|)
    ensures SlotsOk(c, slots', s'.h)
  {
    hide T.Safe, I.Inv, I.NodeOk, I.LogOk;
    S.LeaderInOrder(s, i);
    NodeLogOk(s, i);
    forall t | t in s'.h.logs ensures LogSlots(c, slots', s'.h.logs[t]) {
      assert LogSlots(c, slots, s.h.logs[t]);
      forall x | 0 <= x < |s'.h.logs[t]| ensures SlotOk(c, slots', s'.h.logs[t][x], x) {
        assert x < |s.h.logs[t]| ==> SlotOk(c, slots, s.h.logs[t][x], x);
      }
    }
  }

  lemma StepSlots(c: Setup, slots: Slots, s: C.State, s': C.State, step: C.Step)
    requires I.Inv(s) && C.Next(s, s', step) && SlotsOk(c, slots, s.h) && (step.Append? ==> step.data == [])
    ensures SlotsOk(c, slots, s'.h)
  {
    hide T.Safe, I.Inv, SlotsOk, SlotOk;
    match step {
      case Win(i) => WinSlots(c, slots, s, s', i);
      case Append(i, data) =>
        NoOpSlot(c, slots, R.Entry(s.nodes[i].currentTerm, data), |s.nodes[i].log|);
        AppendSlots(c, slots, slots, s, s', i, data);
      case _ =>
        SameLogs(s, s', step);
        SlotsOfLogs(c, slots, s.h, s'.h);
    }
  }

  lemma NoOpSlot(c: Setup, slots: Slots, entry: R.Entry, x: nat)
    requires entry.data == []
    ensures SlotOk(c, slots, entry, x)
  {
  }

  lemma SameLogs(s: C.State, s': C.State, step: C.Step)
    requires C.Next(s, s', step) && !step.Win? && !step.Append?
    ensures s'.h.logs == s.h.logs
  {
    hide R.HandleVoteReq, R.HandleAppendReq, R.Grants, R.Accepts, R.AppendAnswer, R.CountVote, R.BuildAppend,
         R.HandleAppendResp, R.RecordAppend, R.IsMajorityIndex, R.Holders;
  }

  lemma SlotsOfLogs(c: Setup, slots: Slots, h: C.History, g: C.History)
    requires SlotsOk(c, slots, h) && g.logs == h.logs
    ensures SlotsOk(c, slots, g)
  {
  }

  lemma CommittedSlots(c: Setup, slots: Slots, s: C.State)
    requires I.Inv(s) && SlotsOk(c, slots, s.h)
    ensures LogSlots(c, slots, s.h.committed)
  {
    hide SlotOk, I.NodesOk, I.WinnersOk, I.BallotsOk, I.BallotNodesOk, I.VoteMsgsOk, I.AppendMsgsOk, I.ElectionOk,
         I.VotersOk, I.AckOk;
    var h := s.h;
    if h.committed != [] {
      var d :| d in h.commits && h.committed == I.CommitLog(h, d);
      assert I.CommitOk(s.servers, h, d);
      assert LogSlots(c, slots, h.logs[d.term]);
    }
  }

  // ----- the session that follows a run --------------------------------------------------------------------

  /** Every submission in the list is applied, none is a duplicate and none rejected. */
  ghost predicate AllApplied(init: string, es: seq<Submission>) {
    forall i | 0 <= i < |es| :: OutcomeAt(init, es, i).Applied?
  }

  /** The session's server has committed exactly `es`. */
  ghost predicate HasCommitted(c: Setup, w: K.World, es: seq<Submission>) {
    && K.Inv(w) && w.init == c.init && w.doc == ReceiveAll(c.init, es) && AllApplied(c.init, es)
    && forall e | e in w.sent :: e !in es
  }

  lemma AppliedSnoc(init: string, es: seq<Submission>, e: Submission)
    requires AllApplied(init, es) && AllOpsOk(Changes(ReceiveAll(init, es).revisionLog))
    requires Outcomes(ReceiveAll(init, es), e).Applied?
    ensures AllApplied(init, es + [e]) && ReceiveAll(init, es + [e]) == Receive(ReceiveAll(init, es), e)
  {
    hide Outcomes, Receive, AllOpsOk, ReceiveAll;
    var es' := es + [e];
    forall i | 0 <= i < |es'| ensures OutcomeAt(init, es', i).Applied? {
      if i < |es| {
        assert es'[..i] == es[..i] && es'[i] == es[i];
        assert OutcomeAt(init, es, i).Applied?;
      } else {
        assert es'[..i] == es;
      }
    }
    ReceiveNext(init, es', |es|);
    assert es'[..|es|] == es && es'[..|es| + 1] == es';
  }

  lemma CommitOne(c: Setup, w: K.World, es: seq<Submission>, e: Submission) returns (w': K.World)
    requires HasCommitted(c, w, es) && e in w.sent
    ensures HasCommitted(c, w', es + [e])
    ensures w'.clients == w.clients && w'.submitted == w.submitted && w'.sent == w.sent - {e}
  {
    hide K.Inv, Outcomes, Receive, AllOpsOk, ReceiveAll, AllApplied;
    K.CommitApplies(w, e);
    var o := Outcomes(w.doc, e);
    w' := w.(doc := Receive(w.doc, e), sent := w.sent - {e},
             inbox := K.Route(w.inbox, Revision(w.doc.headRev, o.cPrime, e.clientId), o.newRev));
    K.CommitKeeps(w, w', e);
    AppliedSnoc(c.init, es, e);
  }

  /** Committing the rest of a longer list, every element of which is on its way. */
  lemma {:induction false} CommitMany(c: Setup, w: K.World, es: seq<Submission>, es': seq<Submission>)
    returns (w': K.World)
    requires HasCommitted(c, w, es) && es <= es' && NoneTwice(es')
    requires forall i | |es| <= i < |es'| :: es'[i] in w.sent
    ensures HasCommitted(c, w', es')
    ensures w'.clients == w.clients && w'.submitted == w.submitted
    ensures w'.sent <= w.sent && forall e | e in w.sent && e !in es' :: e in w'.sent
    decreases |es'|
  {
    hide HasCommitted, NoneTwice;
    if |es| == |es'| {
      assert es == es';
      w' := w;
    } else {
      var front, e := es'[..|es'| - 1], es'[|es'| - 1];
      LastIsNew(es');
      w' := CommitMany(c, w, es, front);
      assert es' == front + [e];
      w' := CommitOne(c, w', front, e);
    }
  }

  lemma LastIsNew(es: seq<Edit>)
    requires NoneTwice(es) && es != []
    ensures NoneTwice(es[..|es| - 1]) && es[|es| - 1] !in es[..|es| - 1]
  {
  }

  // ----- the invariant ---------------------------------------------------------------------------------------

  /** Client `id` is in step with the replica it is connected to. */
  ghost predicate Connected(c: Setup, j: Joint, id: string) {
    && id in j.attached && id in j.clients && id in j.queue && j.attached[id] in j.cluster.nodes
    && var log := Replica(c, j, j.attached[id]).revisionLog;
    && 0 <= j.clients[id].serverRev <= |log|
    && j.queue[id] == K.Deliveries(id, log, j.clients[id].serverRev)
  }

  ghost predicate ConnectionsOk(c: Setup, j: Joint) {
    j.queue.Keys == j.clients.Keys && forall id | id in j.attached :: Connected(c, j, id)
  }

  /** A submission that was proposed is committed or on its way, and no newer than its client. */
  ghost predicate EditOk(j: Joint, w: K.World, es: seq<Submission>, e: Edit) {
    && (e in es || e in w.sent) && Valid(e.changeset) && e.baseRev >= 0
    && e.clientId in j.clients && e.submissionId <= j.clients[e.clientId].nextId
  }

  ghost predicate EditsOk(j: Joint, w: K.World, es: seq<Submission>, slots: Slots) {
    && j.pending <= w.sent && j.pending !! slots.Keys
    && forall e | e in slots :: EditOk(j, w, es, e)
  }

  ghost predicate Matches(c: Setup, j: Joint, w: K.World, slots: Slots) {
    && T.Safe(j.cluster) && I.Inv(j.cluster) && SlotsOk(c, slots, j.cluster.h)
    && w.clients == j.clients
    && HasCommitted(c, w, Commands(c.decode, j.cluster.h.committed))
    && EditsOk(j, w, Commands(c.decode, j.cluster.h.committed), slots)
    && ConnectionsOk(c, j)
  }

  lemma StartMatches(c: Setup, j: Joint) returns (w: K.World)
    requires Start(j)
    ensures Matches(c, j, w, map[])
  {
    w := K.World(c.init, NewDoc(c.init), map[], map[], {}, map[]);
    K.StartInv(w);
    T.InitSafe(j.cluster);
  }

  /** A replica's document is a past of the session's. */
  lemma ReplicaIsPast(c: Setup, j: Joint, w: K.World, slots: Slots, p: R.Id)
    requires Matches(c, j, w, slots) && p in j.cluster.nodes
    ensures DocOk(c.init, w.doc) && IsPastOf(c.init, Replica(c, j, p), w.doc)
    ensures Replica(c, j, p).revisionLog <= w.doc.revisionLog
    ensures j.cluster.nodes[p].applied <= j.cluster.h.committed
  {
    hide T.Safe, I.Inv, K.Inv, ReceiveAll, DocOk, EditsOk, ConnectionsOk, AllApplied;
    S.AppliedIsCommittedIn(j.cluster, p);
    CommandsGrow(c.decode, j.cluster.nodes[p].applied, j.cluster.h.committed);
    ReceiveAllGrows(c.init, Commands(c.decode, j.cluster.nodes[p].applied), Commands(c.decode, j.cluster.h.committed));
    PastOf(c.init, Replica(c, j, p), w.doc);
  }

  // ----- steps of the cluster ----------------------------------------------------------------------------------

  /** Whatever a step of the cluster commits was on its way in the session, and is committed there next. */
  lemma SessionFollows(c: Setup, j: Joint, h: C.History, w: K.World, slots: Slots) returns (w': K.World)
    requires Matches(c, j, w, slots) && j.cluster.h.committed <= h.committed && LogSlots(c, slots, h.committed)
    ensures w'.clients == w.clients && HasCommitted(c, w', Commands(c.decode, h.committed))
    ensures EditsOk(j, w', Commands(c.decode, h.committed), slots)
  {
    hide T.Safe, I.Inv, HasCommitted, ConnectionsOk, SlotsOk, LogSlots, NoneTwice;
    var es, es' := Commands(c.decode, j.cluster.h.committed), Commands(c.decode, h.committed);
    CommandsGrow(c.decode, j.cluster.h.committed, h.committed);
    CommandsDistinct(c, slots, h.committed);
    forall i | |es| <= i < |es'| ensures es'[i] in w.sent {
      assert EditOk(j, w, es, es'[i]);
      NotAmongFirst(es', |es|, i);
    }
    w' := CommitMany(c, w, es, es');
    EditsFollow(j, w, w', es, es', slots);
  }

  lemma NotAmongFirst(es: seq<Edit>, n: nat, i: nat)
    requires NoneTwice(es) && n <= i < |es|
    ensures es[i] !in es[..n]
  {
  }

  lemma EditsFollow(j: Joint, w: K.World, w': K.World, es: seq<Submission>, es': seq<Submission>, slots: Slots)
    requires EditsOk(j, w, es, slots) && es <= es' && forall i | 0 <= i < |es'| :: es'[i] in slots
    requires w'.sent <= w.sent && forall e | e in w.sent && e !in es' :: e in w'.sent
    ensures EditsOk(j, w', es', slots)
  {
    forall e | e in j.pending ensures e in w'.sent {
      assert e !in slots;
    }
    forall e | e in slots ensures EditOk(j, w', es', e) {
      assert EditOk(j, w, es, e);
    }
  }

  lemma DeliveriesSnoc(id: string, log: seq<Revision>, rev: Revision, r: nat)
    requires r <= |log|
    ensures K.Deliveries(id, log + [rev], r) == K.Deliveries(id, log, r) + [K.MessageFor(id, rev, |log| + 1)]
  {
  }

  /** A replica applies the next entry of the committed log: its document grows by one revision if the entry
      is a submission, and its clients are told exactly that. */
  lemma AppliedEntry(c: Setup, es: seq<Submission>, applied: seq<R.Entry>, entry: R.Entry, id: string, r: nat)
    requires AllApplied(c.init, es) && Commands(c.decode, applied + [entry]) <= es
    ensures var d := ReceiveAll(c.init, Commands(c.decode, applied));
            var d' := ReceiveAll(c.init, Commands(c.decode, applied + [entry]));
            && AllOpsOk(Changes(d.revisionLog)) && |d.revisionLog| <= |d'.revisionLog|
            && (r <= |d.revisionLog| ==>
                  K.Deliveries(id, d'.revisionLog, r) == K.Deliveries(id, d.revisionLog, r) + Published(c, d, entry, id))
  {
    hide ReceiveAll, K.Deliveries;
    var before, after := Commands(c.decode, applied), Commands(c.decode, applied + [entry]);
    var d := ReceiveAll(c.init, before);
    DocOpsOk(c.init, d);
    assert (applied + [entry])[..|applied|] == applied;
    if after != before {
      var e := c.decode(entry.data).submission;
      assert after == before + [e];
      NextOutcome(c.init, es, before, e);
      var rev := Revision(d.headRev, Outcomes(d, e).cPrime, e.clientId);
      if r <= |d.revisionLog| {
        DeliveriesSnoc(id, d.revisionLog, rev, r);
      }
    }
  }

  lemma NextOutcome(init: string, es: seq<Submission>, before: seq<Submission>, e: Submission)
    requires AllApplied(init, es) && before + [e] <= es
    ensures var d := ReceiveAll(init, before);
            && DocOk(init, d) && AllOpsOk(Changes(d.revisionLog)) && Outcomes(d, e).Applied?
            && ReceiveAll(init, before + [e]) == Receive(d, e)
  {
    hide ReceiveAll, Outcomes, Receive, AllOpsOk, DocOk;
    var n := |before|;
    assert es[..n] == before && es[n] == (before + [e])[n] == e;
    assert OutcomeAt(init, es, n).Applied?;
    ReceiveNext(init, es, n);
    assert es[..n + 1] == before + [e];
  }

  /** A replica that applies nothing and does not crash keeps its document. */
  lemma SameReplica(c: Setup, j: Joint, j': Joint, step: C.Step, p: R.Id)
    requires C.Next(j.cluster, j'.cluster, step) && p in j.cluster.nodes && !L.Crashes(step, p) && step != C.Apply(p)
    ensures p in j'.cluster.nodes && Replica(c, j', p) == Replica(c, j, p)
  {
    hide C.Next, L.Crashes;
    L.BookkeepingKept(j.cluster, j'.cluster, step, p);
  }

  lemma ApplyConnected(c: Setup, j: Joint, j': Joint, w: K.World, slots: Slots, id: string)
    requires Matches(c, j, w, slots) && id in j.attached && I.Inv(j'.cluster)
    requires var p := j.attached[id];
             && p in j.cluster.nodes && C.ApplyStep(j.cluster, j'.cluster, p)
             && id in j'.queue && Applies(c, j, p, id, j'.queue[id])
    requires j'.clients == j.clients && id in j'.attached && j'.attached[id] == j.attached[id]
    ensures Connected(c, j', id)
  {
    hide T.Safe, I.Inv, K.Inv, EditsOk, SlotsOk, AllApplied, ReceiveAll, K.Deliveries, Published, Commands;
    var p := j.attached[id];
    var n, n' := j.cluster.nodes[p], j'.cluster.nodes[p];
    assert Connected(c, j, id);
    var entry := n.log[n.lastApplied];
    S.AppliedIsCommittedIn(j'.cluster, p);
    assert n'.applied == n.applied + [entry] && n'.applied <= j.cluster.h.committed;
    CommandsGrow(c.decode, n'.applied, j.cluster.h.committed);
    AppliedEntry(c, Commands(c.decode, j.cluster.h.committed), n.applied, entry, id, j.clients[id].serverRev);
  }

  lemma ClusterConnections(c: Setup, j: Joint, j': Joint, w: K.World, slots: Slots, step: C.Step)
    requires Matches(c, j, w, slots) && ClusterStep(c, j, j', step) && I.Inv(j'.cluster)
    ensures ConnectionsOk(c, j')
  {
    hide T.Safe, I.Inv, EditsOk, SlotsOk, HasCommitted, L.Crashes, C.Next, Applies, Replica, K.Deliveries;
    forall id | id in j'.attached ensures Connected(c, j', id) {
      assert Connected(c, j, id);
      if step == C.Apply(j.attached[id]) {
        ApplyOf(j.cluster, j'.cluster, j.attached[id]);
        ApplyConnected(c, j, j', w, slots, id);
      } else {
        SameReplica(c, j, j', step, j.attached[id]);
      }
    }
  }

  lemma ApplyOf(s: C.State, s': C.State, p: R.Id)
    requires C.Next(s, s', C.Apply(p))
    ensures C.ApplyStep(s, s', p)
  {
  }

  lemma ClusterMatches(c: Setup, j: Joint, j': Joint, w: K.World, slots: Slots, step: C.Step) returns (w': K.World)
    requires Matches(c, j, w, slots) && ClusterStep(c, j, j', step)
    ensures Matches(c, j', w', slots)
  {
    hide T.Safe, I.Inv, HasCommitted, SlotsOk, C.Next, Commands;
    S.NextKeepsInv(j.cluster, j'.cluster, step);
    S.SafeInv(j'.cluster);
    S.NextRemembers(j.cluster, j'.cluster, step);
    StepSlots(c, slots, j.cluster, j'.cluster, step);
    CommittedSlots(c, slots, j'.cluster);
    w' := SessionFollows(c, j, j'.cluster.h, w, slots);
    ClusterConnections(c, j, j', w, slots, step);
    SameEdits(j, j', w', Commands(c.decode, j'.cluster.h.committed), slots);
  }

  lemma SameEdits(j: Joint, j': Joint, w: K.World, es: seq<Submission>, slots: Slots)
    requires EditsOk(j, w, es, slots) && j'.clients == j.clients && j'.pending <= j.pending
    ensures EditsOk(j', w, es, slots)
  {
    forall e | e in slots ensures EditOk(j', w, es, e) {
      assert EditOk(j, w, es, e);
    }
  }

  // ----- proposals ---------------------------------------------------------------------------------------------

  /** A submission on its way is its client's latest. */
  lemma SentIsLatest(w: K.World, e: Edit)
    requires K.Inv(w) && e in w.sent
    ensures Valid(e.changeset) && e.baseRev >= 0
    ensures e.clientId in w.clients && e.submissionId == w.clients[e.clientId].nextId
  {
    hide Chain, Rebased, ClientOk, DocOk, K.InStep, Valid;
    assert K.ClientIn(w, e.clientId);
  }

  lemma ProposeMatches(c: Setup, j: Joint, j': Joint, w: K.World, slots: Slots, i: R.Id, e: Edit) returns (slots': Slots)
    requires RoundTrips(c) && Matches(c, j, w, slots) && ProposeStep(c, j, j', i, e)
    ensures Matches(c, j', w, slots')
  {
    hide T.Safe, I.Inv, K.Inv, SlotsOk, AllApplied, ReceiveAll, Commands, Replica, C.Next;
    var s, s', step := j.cluster, j'.cluster, C.Append(i, c.encode(e));
    AppendOf(s, s', i, c.encode(e));
    S.NextKeepsInv(s, s', step);
    S.SafeInv(s');
    slots' := slots[e := Slot(s.nodes[i].currentTerm, |s.nodes[i].log|)];
    AppendSlots(c, slots, slots', s, s', i, c.encode(e));
    SentIsLatest(w, e);
    forall f | f in slots' ensures EditOk(j', w, Commands(c.decode, s'.h.committed), f) {
      assert f in slots ==> EditOk(j, w, Commands(c.decode, s.h.committed), f);
    }
    forall id | id in j'.attached ensures Connected(c, j', id) {
      assert Connected(c, j, id);
      SameReplica(c, j, j', step, j.attached[id]);
    }
  }

  lemma AppendOf(s: C.State, s': C.State, i: R.Id, data: R.Bytes)
    requires C.Next(s, s', C.Append(i, data))
    ensures C.AppendStep(s, s', i, data) && s'.h.committed == s.h.committed
  {
  }

  // ----- steps of a client ----------------------------------------------------------------------------------------

  /** A step that leaves the cluster and client `k` alone leaves `k` connected as it was. */
  lemma OthersConnected(c: Setup, j: Joint, j': Joint, k: string)
    requires Connected(c, j, k) && j'.cluster == j.cluster
    requires k in j'.attached && k in j'.clients && k in j'.queue
    requires j'.attached[k] == j.attached[k] && j'.clients[k] == j.clients[k] && j'.queue[k] == j.queue[k]
    ensures Connected(c, j', k)
  {
    hide Replica, K.Deliveries;
    SameCluster(c, j, j', j.attached[k]);
  }

  /** No submission becomes newer than its client. */
  lemma EditsOfClients(j: Joint, j': Joint, w: K.World, w': K.World, es: seq<Submission>, slots: Slots)
    requires EditsOk(j, w, es, slots) && w.sent <= w'.sent && j'.pending <= w'.sent && j'.pending !! slots.Keys
    requires j.clients.Keys <= j'.clients.Keys
    requires forall k | k in j.clients :: j.clients[k].nextId <= j'.clients[k].nextId
    ensures EditsOk(j', w', es, slots)
  {
    forall e | e in slots ensures EditOk(j', w', es, e) {
      assert EditOk(j, w, es, e);
    }
  }

  lemma JoinMatches(c: Setup, j: Joint, j': Joint, w: K.World, slots: Slots, id: string, p: R.Id) returns (w': K.World)
    requires Matches(c, j, w, slots) && JoinStep(c, j, j', id, p)
    ensures Matches(c, j', w', slots)
  {
    hide T.Safe, I.Inv, K.Inv, SlotsOk, AllApplied, ReceiveAll, Commands, Replica, K.Deliveries, DocOk, TextAt,
         ConnectionsOk;
    var d, log := Replica(c, j, p), w.doc.revisionLog;
    ReplicaIsPast(c, j, w, slots, p);
    HistoryChain(c.init, w.doc);
    w' := w.(clients := w.clients[id := Connect(TextAt(w.init, Changes(log), d.headRev), d.headRev)],
             inbox := w.inbox[id := K.Deliveries(id, log, d.headRev)]);
    K.JoinKeeps(w, w', id, d.headRev);
    EditsOfClients(j, j', w, w', Commands(c.decode, j.cluster.h.committed), slots);
    JoinConnections(c, j, j', id, p);
  }

  lemma JoinConnections(c: Setup, j: Joint, j': Joint, id: string, p: R.Id)
    requires ConnectionsOk(c, j) && JoinStep(c, j, j', id, p)
    ensures ConnectionsOk(c, j')
  {
    hide Replica, K.Deliveries, DocOk;
    NothingToHear(c, Replica(c, j, p), id);
    forall k | k in j'.attached ensures Connected(c, j', k) {
      if k != id {
        assert Connected(c, j, k);
        OthersConnected(c, j, j', k);
      } else {
        SameCluster(c, j, j', p);
      }
    }
  }

  lemma HistoryChain(init: string, d: Doc)
    requires DocOk(init, d)
    ensures d.headRev == |d.revisionLog| && Chain(init, Changes(d.revisionLog))
  {
  }

  lemma NothingToHear(c: Setup, d: Doc, id: string)
    requires DocOk(c.init, d)
    ensures d.headRev == |d.revisionLog| && K.Deliveries(id, d.revisionLog, d.headRev) == []
  {
  }

  lemma SameCluster(c: Setup, j: Joint, j': Joint, p: R.Id)
    requires j'.cluster == j.cluster && p in j.cluster.nodes
    ensures Replica(c, j', p) == Replica(c, j, p)
  {
  }

  lemma TypeMatches(c: Setup, j: Joint, j': Joint, w: K.World, slots: Slots, id: string, text: string) returns (w': K.World)
    requires Matches(c, j, w, slots) && TypeStep(j, j', id, text)
    ensures Matches(c, j', w', slots)
  {
    hide T.Safe, I.Inv, K.Inv, SlotsOk, AllApplied, ReceiveAll, Commands, Replica, K.Deliveries;
    w' := w.(clients := j'.clients);
    K.TypeKeeps(w, w', id, text);
    EditsOfClients(j, j', w, w', Commands(c.decode, j.cluster.h.committed), slots);
    ClientConnections(c, j, j', id);
  }

  /** A client whose revision and queue stay the same stays connected. */
  lemma ClientConnections(c: Setup, j: Joint, j': Joint, id: string)
    requires ConnectionsOk(c, j) && id in j.clients && id in j'.clients
    requires j'.cluster == j.cluster && j'.attached == j.attached && j'.queue == j.queue
    requires j'.clients == j.clients[id := j'.clients[id]] && j'.clients[id].serverRev == j.clients[id].serverRev
    ensures ConnectionsOk(c, j')
  {
    hide Replica, K.Deliveries;
    forall k | k in j'.attached ensures Connected(c, j', k) {
      assert Connected(c, j, k);
      SameCluster(c, j, j', j.attached[k]);
    }
  }

  lemma TickMatches(c: Setup, j: Joint, j': Joint, w: K.World, slots: Slots, id: string) returns (w': K.World)
    requires Matches(c, j, w, slots) && TickStep(j, j', id)
    ensures Matches(c, j', w', slots)
  {
    hide T.Safe, I.Inv, K.Inv, AllApplied, ReceiveAll, Commands, Replica, K.Deliveries, ClientOk, Submits, SlotsOk;
    var x := SubmitTick(j.clients[id]);
    var e := Edit(id, x.nextId, x.serverRev, x.x);
    w' := w.(clients := w.clients[id := x], sent := w.sent + {e}, submitted := w.submitted[id := e]);
    K.TickKeeps(w, w', id);
    var es := Commands(c.decode, j.cluster.h.committed);
    CommittedSlots(c, slots, j.cluster);
    CommandsDistinct(c, slots, j.cluster.h.committed);
    TickedClient(j.clients[id]);
    NewEdit(j, w, es, slots, e);
    EditsOfClients(j, j', w, w', es, slots);
    ClientConnections(c, j, j', id);
  }

  lemma TickedClient(x: Client)
    requires ClientOk(x) && Submits(x)
    ensures SubmitTick(x).nextId == x.nextId + 1 && SubmitTick(x).serverRev == x.serverRev
  {
  }

  /** A submission with the next number is neither committed nor proposed. */
  lemma NewEdit(j: Joint, w: K.World, es: seq<Submission>, slots: Slots, e: Edit)
    requires EditsOk(j, w, es, slots) && (forall i | 0 <= i < |es| :: es[i] in slots)
    requires e.clientId in j.clients && e.submissionId == j.clients[e.clientId].nextId + 1
    ensures e !in es && e !in slots
  {
    assert e in slots ==> EditOk(j, w, es, e);
  }

  /** The next message on a connection is the next one of the session, and the client can take it in. */
  lemma NextHeard(c: Setup, j: Joint, w: K.World, slots: Slots, id: string)
    requires Matches(c, j, w, slots) && id in j.attached && id in j.queue && j.queue[id] != []
    ensures Connected(c, j, id) && CanHear(j, id) && K.CanDeliver(w, id) && w.inbox[id][0] == j.queue[id][0]
    ensures var log := Replica(c, j, j.attached[id]).revisionLog;
            && 0 <= j.clients[id].serverRev < |log|
            && j.queue[id][1..] == K.Deliveries(id, log, j.clients[id].serverRev + 1)
            && j.queue[id][0] == K.MessageFor(id, log[j.clients[id].serverRev], j.clients[id].serverRev + 1)
  {
    hide T.Safe, I.Inv, K.Inv, SlotsOk, AllApplied, ReceiveAll, Commands, Replica, DocOk, EditsOk, ClientOk;
    assert Connected(c, j, id);
    ReplicaIsPast(c, j, w, slots, j.attached[id]);
    Queued(w, id);
    var r, log := j.clients[id].serverRev, Replica(c, j, j.attached[id]).revisionLog;
    assert log[r] == w.doc.revisionLog[r];
    assert K.Deliveries(id, log, r)[1..] == K.Deliveries(id, log, r + 1);
    K.NextMessage(w, id);
  }

  lemma Queued(w: K.World, id: string)
    requires K.Inv(w) && id in w.clients
    ensures id in w.inbox && 0 <= w.clients[id].serverRev <= |w.doc.revisionLog|
    ensures w.inbox[id] == K.Deliveries(id, w.doc.revisionLog, w.clients[id].serverRev)
    ensures ClientOk(w.clients[id]) && Chain(w.init, Changes(w.doc.revisionLog))
    ensures w.clients[id].baseText == TextAt(w.init, Changes(w.doc.revisionLog), w.clients[id].serverRev)
  {
    hide ClientOk, K.Busy, K.Idle, DocOk, Chain, TextAt;
    assert K.ClientIn(w, id);
  }

  lemma HearMatches(c: Setup, j: Joint, j': Joint, w: K.World, slots: Slots, id: string) returns (w': K.World)
    requires Matches(c, j, w, slots) && HearStep(j, j', id)
    ensures Matches(c, j', w', slots)
  {
    hide T.Safe, I.Inv, K.Inv, SlotsOk, AllApplied, ReceiveAll, Commands, Replica, K.Deliveries, ClientOk, HandleAck,
         HandleBroadcast, ConnectionsOk;
    NextHeard(c, j, w, slots, id);
    w' := w.(clients := j'.clients, inbox := w.inbox[id := w.inbox[id][1..]]);
    K.DeliverKeeps(w, w', id);
    HeardClient(j, j', id, j.clients[id].serverRev);
    EditsOfClients(j, j', w, w', Commands(c.decode, j.cluster.h.committed), slots);
    HearConnections(c, j, j', id);
  }

  lemma HearConnections(c: Setup, j: Joint, j': Joint, id: string)
    requires ConnectionsOk(c, j) && id in j.attached && id in j.clients && id in j.queue && Connected(c, j, id)
    requires id in j'.clients && id in j'.queue
    requires j' == j.(clients := j.clients[id := j'.clients[id]], queue := j.queue[id := j'.queue[id]])
    requires var log, r := Replica(c, j, j.attached[id]).revisionLog, j.clients[id].serverRev;
             r < |log| && j'.queue[id] == K.Deliveries(id, log, r + 1) && j'.clients[id].serverRev == r + 1
    ensures ConnectionsOk(c, j')
  {
    hide Replica, K.Deliveries;
    forall k | k in j'.attached ensures Connected(c, j', k) {
      assert Connected(c, j, k);
      SameCluster(c, j, j', j.attached[k]);
    }
  }

  lemma HeardClient(j: Joint, j': Joint, id: string, r: int)
    requires HearStep(j, j', id) && j.queue[id][0].newRev == r + 1
    ensures id in j'.clients && j'.clients[id].serverRev == r + 1 && j'.clients[id].nextId == j.clients[id].nextId
  {
  }

  // ----- whole runs ---------------------------------------------------------------------------------------------------

  lemma NextMatches(c: Setup, j: Joint, j': Joint, ev: Event, w: K.World, slots: Slots) returns (w': K.World, slots': Slots)
    requires RoundTrips(c) && Matches(c, j, w, slots) && Next(c, j, j', ev)
    ensures Matches(c, j', w', slots')
  {
    hide Matches, RoundTrips;
    w', slots' := w, slots;
    match ev {
      case Raft(step) => w' := ClusterMatches(c, j, j', w, slots, step);
      case Propose(i, e) => slots' := ProposeMatches(c, j, j', w, slots, i, e);
      case Join(id, p) => w' := JoinMatches(c, j, j', w, slots, id, p);
      case Type(id, text) => w' := TypeMatches(c, j, j', w, slots, id, text);
      case Tick(id) => w' := TickMatches(c, j, j', w, slots, id);
      case Hear(id) => w' := HearMatches(c, j, j', w, slots, id);
    }
  }

  lemma {:induction false} RunMatches(c: Setup, r: JointRun, k: nat) returns (w: K.World, slots: Slots)
    requires RoundTrips(c) && IsJointRun(c, r) && k < |r.joints|
    ensures Matches(c, r.joints[k], w, slots)
  {
    hide Matches, RoundTrips, Next, Start;
    if k == 0 {
      w := StartMatches(c, r.joints[0]);
      slots := map[];
    } else {
      w, slots := RunMatches(c, r, k - 1);
      w, slots := NextMatches(c, r.joints[k - 1], r.joints[k], r.events[k - 1], w, slots);
    }
  }

  /** In every joint run, a client that is connected to a replica, however far behind or often restarted,
      has that replica's text at its revision as its base text, has the rest of the replica's history in its
      queue, and can take in its next message; and if it has nothing left to hear, to wait for or to submit,
      it shows the replica's text. */
  lemma ClientsFollowTheirReplica(c: Setup, r: JointRun, k: nat, id: string)
    requires RoundTrips(c) && IsJointRun(c, r) && k < |r.joints| && id in r.joints[k].attached
    ensures var j := r.joints[k];
            && Connected(c, j, id) && ClientOk(j.clients[id]) && (j.queue[id] != [] ==> CanHear(j, id))
            && var d, x := Replica(c, j, j.attached[id]), j.clients[id];
            && Chain(c.init, Changes(d.revisionLog)) && x.baseText == TextAt(c.init, Changes(d.revisionLog), x.serverRev)
            && (j.queue[id] == [] && !x.waiting && !Submits(x) ==> x.view == d.headText)
  {
    hide IsJointRun, RoundTrips, T.Safe, I.Inv, K.Inv, SlotsOk, EditsOk, AllApplied, ReceiveAll, Commands, Replica, ClientOk,
         Submits, Chain, DocOk, TextAt;
    var w, slots := RunMatches(c, r, k);
    var j := r.joints[k];
    assert Connected(c, j, id);
    ReplicaIsPast(c, j, w, slots, j.attached[id]);
    Queued(w, id);
    var d, x := Replica(c, j, j.attached[id]), j.clients[id];
    PastText(c.init, d, w.doc, x.serverRev);
    if j.queue[id] != [] {
      NextHeard(c, j, w, slots, id);
    } else {
      assert |K.Deliveries(id, d.revisionLog, x.serverRev)| == |d.revisionLog| - x.serverRev;
      SubmitTickOk(x);
    }
  }

  /** A connected client with nothing left to hear, to wait for or to submit. */
  ghost predicate Quiet(j: Joint, id: string) {
    && id in j.attached && j.attached[id] in j.cluster.nodes && id in j.clients && id in j.queue
    && j.queue[id] == [] && !j.clients[id].waiting && ClientOk(j.clients[id]) && !Submits(j.clients[id])
  }

  /** Two quiet clients, of replicas that have applied equally many entries, show the same text. */
  lemma QuietClientsAgree(c: Setup, r: JointRun, k: nat, id: string, other: string)
    requires RoundTrips(c) && IsJointRun(c, r) && k < |r.joints|
    requires Quiet(r.joints[k], id) && Quiet(r.joints[k], other)
    requires |Server(r.joints[k], id).applied| == |Server(r.joints[k], other).applied|
    ensures r.joints[k].clients[id].view == r.joints[k].clients[other].view
  {
    hide IsJointRun, RoundTrips, Matches, ClientOk, Submits, Connected, DocOk;
    var j := r.joints[k];
    ClientsFollowTheirReplica(c, r, k, id);
    ClientsFollowTheirReplica(c, r, k, other);
    var w, slots := RunMatches(c, r, k);
    ReplicaIsPast(c, j, w, slots, j.attached[id]);
    ReplicaIsPast(c, j, w, slots, j.attached[other]);
    assert Server(j, id).applied == Server(j, other).applied;
  }

  /** The server a client is connected to. */
  ghost function Server(j: Joint, id: string): R.Node
    requires id in j.attached && j.attached[id] in j.cluster.nodes
  {
    j.cluster.nodes[j.attached[id]]
  }

  /** A revision of a past of a document is that revision of the document. */
  lemma PastText(init: string, d: Doc, e: Doc, r: nat)
    requires DocOk(init, d) && DocOk(init, e) && d.revisionLog <= e.revisionLog && r <= |d.revisionLog|
    ensures Chain(init, Changes(d.revisionLog)) && Chain(init, Changes(e.revisionLog)) && d.headRev == |d.revisionLog|
    ensures TextAt(init, Changes(d.revisionLog), r) == TextAt(init, Changes(e.revisionLog), r)
    ensures TextAt(init, Changes(d.revisionLog), |d.revisionLog|) == d.headText
  {
    assert Changes(e.revisionLog)[..r] == Changes(d.revisionLog)[..r];
    TextAtEnd(init, Changes(d.revisionLog));
  }

  /** In every joint run, at every moment and on every replica, each submission in the log is applied, and
      applied once: none is rejected, none is there twice. */
  lemma EverySubmissionIsAppliedOnce(c: Setup, r: JointRun, k: nat, p: R.Id)
    requires RoundTrips(c) && IsJointRun(c, r) && k < |r.joints| && p in r.joints[k].cluster.nodes
    ensures var es := Commands(c.decode, r.joints[k].cluster.nodes[p].applied);
            AllApplied(c.init, es) && NoneTwice(es) && Replica(c, r.joints[k], p).headRev == |es|
  {
    hide IsJointRun, RoundTrips, T.Safe, I.Inv, K.Inv, EditsOk, ConnectionsOk, ReceiveAll, SlotsOk;
    var w, slots := RunMatches(c, r, k);
    var j := r.joints[k];
    var es, all := Commands(c.decode, j.cluster.nodes[p].applied), Commands(c.decode, j.cluster.h.committed);
    ReplicaIsPast(c, j, w, slots, p);
    CommandsGrow(c.decode, j.cluster.nodes[p].applied, j.cluster.h.committed);
    CommittedSlots(c, slots, j.cluster);
    CommandsDistinct(c, slots, j.cluster.h.committed);
    PrefixApplied(c.init, es, all);
    RevisionCount(c.init, es);
  }

  lemma PrefixApplied(init: string, es: seq<Submission>, all: seq<Submission>)
    requires AllApplied(init, all) && es <= all && NoneTwice(all)
    ensures AllApplied(init, es) && NoneTwice(es)
  {
    forall i | 0 <= i < |es| ensures OutcomeAt(init, es, i).Applied? {
      assert es[..i] == all[..i];
      assert OutcomeAt(init, all, i).Applied?;
    }
    forall i, k | 0 <= i < k < |es| ensures es[i] != es[k] {
      assert es[i] == all[i] && es[k] == all[k];
    }
  }

  lemma {:induction false} RevisionCount(init: string, es: seq<Submission>)
    requires AllApplied(init, es)
    ensures ReceiveAll(init, es).headRev == |es|
    decreases |es|
  {
    if es != [] {
      var n := |es| - 1;
      NextOutcome(init, es, es[..n], es[n]);
      forall i | 0 <= i < n ensures OutcomeAt(init, es[..n], i).Applied? {
        assert es[..n][..i] == es[..i];
        assert OutcomeAt(init, es, i).Applied?;
      }
      assert es[..n] + [es[n]] == es;
      RevisionCount(init, es[..n]);
    }
  }
}
