/** Editors and the server together: every run keeps every client's knowledge exact, and quiescent
    clients show the server's text.

    A step is one client joining, typing, ticking or taking in a message, or the server committing a
    submission.  Results reach each client once and in commit order: `inbox` is a queue.  A client
    that reconnects or repeats a submission is not part of this model. */
module Collaboration {
  import opened Changesets
  import opened Following
  import opened FollowMarks
  import opened Documents
  import opened Clients

  datatype Message = AckMsg(newRev: int) | BroadcastMsg(changeset: Changeset, newRev: int)

  /** `sent` holds the submissions on their way to the server; `submitted` records each client's latest
      submission, and no step reads it. */
  datatype World = World(
    init: string,
    doc: Doc,
    clients: map<string, Client>,
    inbox: map<string, seq<Message>>,
    sent: set<Edit>,
    submitted: map<string, Edit>)

  // ----- the steps ---------------------------------------------------------------------------------------

  /** The routing rule of `onCommit`: an acknowledgement to the author, the changeset to all others. */
  function MessageFor(id: string, rev: Revision, newRev: int): Message {
    if rev.source == id then AckMsg(newRev) else BroadcastMsg(rev.changeset, newRev)
  }

  function Route(inbox: map<string, seq<Message>>, rev: Revision, newRev: int): map<string, seq<Message>> {
    map id | id in inbox :: inbox[id] + [MessageFor(id, rev, newRev)]
  }

  predicate Start(w: World) {
    w == World(w.init, NewDoc(w.init), map[], map[], {}, map[])
  }

  /** A client joins through a server that may lag behind: it is given the text at revision `rev`, and has
      still to hear about the rest. */
  predicate JoinStep(w: World, w': World, id: string, rev: nat) {
    var log := w.doc.revisionLog;
    && id !in w.clients && rev <= |log| && Chain(w.init, Changes(log))
    && w' == w.(clients := w.clients[id := Connect(TextAt(w.init, Changes(log), rev), rev)],
                inbox := w.inbox[id := Deliveries(id, log, rev)])
  }

  predicate TypeStep(w: World, w': World, id: string, text: string) {
    && id in w.clients
    && w' == w.(clients := w.clients[id := TypeText(w.clients[id], text)])
  }

  predicate TickStep(w: World, w': World, id: string) {
    && id in w.clients && ClientOk(w.clients[id])
    && var c := SubmitTick(w.clients[id]);
       var e := Edit(id, c.nextId, c.serverRev, c.x);
       w' == if Submits(w.clients[id])
             then w.(clients := w.clients[id := c], sent := w.sent + {e}, submitted := w.submitted[id := e])
             else w
  }

  /** The server commits a submission it has validated, and the results are routed. */
  predicate CommitStep(w: World, w': World, e: Edit) {
    && e in w.sent && Valid(e.changeset) && e.baseRev >= 0 && AllOpsOk(Changes(w.doc.revisionLog))
    && var o := Outcomes(w.doc, e);
       var d := Receive(w.doc, e);
       w' == w.(doc := d, sent := w.sent - {e},
                inbox := match o
                         case Applied(c, rev, _) => Route(w.inbox, Revision(w.doc.headRev, c, e.clientId), rev)
                         case Duplicate(rev, id) =>
                           if id in w.inbox then w.inbox[id := w.inbox[id] + [AckMsg(rev)]] else w.inbox
                         case Rejected => w.inbox)
  }

  /** The handlers' demands on the next message of `id`. */
  predicate CanDeliver(w: World, id: string) {
    && id in w.clients && id in w.inbox && w.inbox[id] != []
    && ClientOk(w.clients[id])
    && (w.inbox[id][0].BroadcastMsg? ==> ValidOn(w.inbox[id][0].changeset, w.clients[id].baseText))
  }

  function Delivered(w: World, id: string): Client
    requires CanDeliver(w, id)
  {
    match w.inbox[id][0]
    case AckMsg(rev) => HandleAck(w.clients[id], rev)
    case BroadcastMsg(b, rev) => HandleBroadcast(w.clients[id], b, rev)
  }

  predicate DeliverStep(w: World, w': World, id: string) {
    && CanDeliver(w, id)
    && w' == w.(clients := w.clients[id := Delivered(w, id)], inbox := w.inbox[id := w.inbox[id][1..]])
  }

  datatype Event =
    | Join(id: string, rev: nat)
    | Type(id: string, text: string)
    | Tick(id: string)
    | Commit(entry: Edit)
    | Deliver(id: string)

  predicate Next(w: World, w': World, ev: Event) {
    match ev
    case Join(id, rev) => JoinStep(w, w', id, rev)
    case Type(id, text) => TypeStep(w, w', id, text)
    case Tick(id) => TickStep(w, w', id)
    case Commit(e) => CommitStep(w, w', e)
    case Deliver(id) => DeliverStep(w, w', id)
  }

  datatype Session = Session(worlds: seq<World>, events: seq<Event>)

  predicate IsSession(s: Session) {
    && |s.worlds| == |s.events| + 1 && Start(s.worlds[0])
    && forall k | 0 <= k < |s.events| :: Next(s.worlds[k], s.worlds[k + 1], s.events[k])
  }

  // ----- the invariant ---------------------------------------------------------------------------------------

  /** What `id` has still to hear about the history from revision `r` on. */
  function Deliveries(id: string, log: seq<Revision>, r: nat): seq<Message>
    requires r <= |log|
  {
    seq(|log| - r, k requires 0 <= k < |log| - r => MessageFor(id, log[r + k], r + k + 1))
  }

  predicate NoneBy(id: string, log: seq<Revision>, from: nat, to: nat) {
    forall k: nat | from <= k < to && k < |log| :: log[k].source != id
  }

  /** The client knows the server's text at its revision, and its queue holds the rest of the history. */
  predicate InStep(init: string, log: seq<Revision>, id: string, c: Client, queue: seq<Message>) {
    && ClientOk(c) && 0 <= c.serverRev <= |log|
    && Chain(init, Changes(log))
    && c.baseText == TextAt(init, Changes(log), c.serverRev)
    && queue == Deliveries(id, log, c.serverRev)
  }

  /** The submission `e` was valid at its base revision, and X is it, rebased over exactly the history
      the client has seen since. */
  predicate Tracks(init: string, log: seq<Revision>, id: string, c: Client, e: Edit) {
    && e.clientId == id && e.submissionId == c.nextId && Valid(e.changeset) && NoAdjacentInserts(e.changeset.ops)
    && 0 <= e.baseRev <= c.serverRev <= |log|
    && Chain(init, Changes(log)) && AllOpsOk(Changes(log))
    && ValidOn(e.changeset, TextAt(init, Changes(log), e.baseRev))
    && c.x == Rebased(e.changeset, Changes(log)[e.baseRev..c.serverRev])
  }

  /** The submission was committed as revision `k`, which the client has not heard of. */
  predicate CommittedAs(log: seq<Revision>, id: string, c: Client, e: Edit, k: nat) {
    && 0 <= c.serverRev <= k < |log| && 0 <= e.baseRev <= k && OpsOk(e.changeset.ops) && AllOpsOk(Changes(log))
    && log[k].source == id && log[k].changeset == Rebased(e.changeset, Changes(log)[e.baseRev..k])
    && NoneBy(id, log, c.serverRev, k) && NoneBy(id, log, k + 1, |log|)
  }

  ghost predicate Idle(w: World, id: string, c: Client)
    requires 0 <= c.serverRev
  {
    && (forall e | e in w.sent :: e.clientId != id)
    && NoneBy(id, w.doc.revisionLog, c.serverRev, |w.doc.revisionLog|)
  }

  ghost predicate Busy(w: World, id: string, c: Client) {
    && 0 <= c.serverRev && id in w.submitted
    && var e := w.submitted[id];
    && Tracks(w.init, w.doc.revisionLog, id, c, e)
    && (if e in w.sent
        then NoneBy(id, w.doc.revisionLog, c.serverRev, |w.doc.revisionLog|)
             && (id in w.doc.lastSubmission ==> w.doc.lastSubmission[id] < c.nextId)
        else exists k: nat :: CommittedAs(w.doc.revisionLog, id, c, e, k))
  }

  ghost predicate ClientIn(w: World, id: string)
    requires id in w.clients
  {
    var c := w.clients[id];
    && id in w.inbox && InStep(w.init, w.doc.revisionLog, id, c, w.inbox[id])
    && (if c.waiting then Busy(w, id, c) else Idle(w, id, c))
    && (id in w.doc.lastSubmission ==> w.doc.lastSubmission[id] <= c.nextId)
  }

  ghost predicate Inv(w: World) {
    && DocOk(w.init, w.doc) && AllNoAdjacent(Changes(w.doc.revisionLog))
    && w.inbox.Keys == w.clients.Keys
    && w.doc.lastSubmission.Keys <= w.clients.Keys
    && (forall k | 0 <= k < |w.doc.revisionLog| :: w.doc.revisionLog[k].source in w.clients)
    && (forall e | e in w.sent :: e.clientId in w.clients && w.clients[e.clientId].waiting
                                  && e.clientId in w.submitted && e == w.submitted[e.clientId])
    && (forall id | id in w.clients :: ClientIn(w, id))
  }

  // ----- steps of one client -----------------------------------------------------------------------------------

  lemma StartInv(w: World)
    requires Start(w)
    ensures Inv(w)
  {
  }

  /** A client a step does not concern stays in order. */
  lemma Untouched(w: World, w': World, j: string)
    requires j in w.clients && ClientIn(w, j)
    requires j in w'.clients && w'.clients[j] == w.clients[j] && j in w'.inbox && w'.inbox[j] == w.inbox[j]
    requires w'.init == w.init && w'.doc == w.doc
    requires j in w.submitted ==> j in w'.submitted && w'.submitted[j] == w.submitted[j]
    requires forall e: Edit | e.clientId == j :: e in w.sent <==> e in w'.sent
    ensures ClientIn(w', j)
  {
    hide InStep, CommittedAs, NoneBy, AllOpsOk, Chain;
  }

  lemma HeadText(init: string, d: Doc)
    requires DocOk(init, d)
    ensures d.headRev == |d.revisionLog| && Chain(init, Changes(d.revisionLog))
    ensures d.headText == TextAt(init, Changes(d.revisionLog), |d.revisionLog|)
  {
    TextAtEnd(init, Changes(d.revisionLog));
  }

  lemma JoinedOk(w: World, w': World, id: string, rev: nat)
    requires Inv(w) && JoinStep(w, w', id, rev)
    ensures ClientIn(w', id)
  {
    hide Chain, ClientOk, ClientIn, Deliveries, TextAt;
    ConnectOk(TextAt(w.init, Changes(w.doc.revisionLog), rev), rev);
    var c := w'.clients[id];
    assert InStep(w.init, w.doc.revisionLog, id, c, w'.inbox[id]);
    assert Idle(w', id, c);
    JoinedClient(w', id);
  }

  lemma JoinedClient(w: World, id: string)
    requires id in w.clients && id in w.inbox && !w.clients[id].waiting && id !in w.doc.lastSubmission
    requires InStep(w.init, w.doc.revisionLog, id, w.clients[id], w.inbox[id]) && Idle(w, id, w.clients[id])
    ensures ClientIn(w, id)
  {
  }

  lemma JoinKeeps(w: World, w': World, id: string, rev: nat)
    requires Inv(w) && JoinStep(w, w', id, rev)
    ensures Inv(w')
  {
    hide ClientIn, DocOk;
    forall j | j in w'.clients ensures ClientIn(w', j) {
      if j == id {
        JoinedOk(w, w', id, rev);
      } else {
        assert ClientIn(w, j);
        Untouched(w, w', j);
      }
    }
  }

  lemma TypeKeeps(w: World, w': World, id: string, text: string)
    requires Inv(w) && TypeStep(w, w', id, text)
    ensures Inv(w')
  {
    hide ClientIn, DocOk;
    forall j | j in w'.clients ensures ClientIn(w', j) {
      assert ClientIn(w, j);
      if j == id {
        TypedOk(w, w', id, text);
      } else {
        Untouched(w, w', j);
      }
    }
  }

  lemma TypedOk(w: World, w': World, id: string, text: string)
    requires TypeStep(w, w', id, text) && ClientIn(w, id)
    ensures ClientIn(w', id)
  {
    hide Chain, TextAt, Rebased, NoneBy;
    var c, c' := w.clients[id], w'.clients[id];
    if c.waiting && w.submitted[id] !in w.sent {
      var k: nat :| CommittedAs(w.doc.revisionLog, id, c, w.submitted[id], k);
      assert CommittedAs(w'.doc.revisionLog, id, c', w'.submitted[id], k);
    }
  }

  /** A tick that submits: X is the submission, rebased over nothing. */
  lemma TickedOk(w: World, w': World, id: string)
    requires Inv(w) && TickStep(w, w', id) && Submits(w.clients[id])
    ensures ClientIn(w', id)
  {
    hide Chain, ClientOk, Unsent, IsNoChange;
    var c, c' := w.clients[id], w'.clients[id];
    var log := w.doc.revisionLog;
    assert ClientIn(w, id);
    SubmitTickOk(c);
    UnsentMeaning(c);
    DocOpsOk(w.init, w.doc);
    assert Changes(log)[c.serverRev..c.serverRev] == [];
    assert Tracks(w.init, log, id, c', w'.submitted[id]);
  }

  lemma TickKeeps(w: World, w': World, id: string)
    requires Inv(w) && TickStep(w, w', id)
    ensures Inv(w')
  {
    hide ClientIn, DocOk, ClientOk, Submits;
    if Submits(w.clients[id]) {
      SubmitTickWaits(w.clients[id]);
      forall j | j in w'.clients ensures ClientIn(w', j) {
        if j == id {
          TickedOk(w, w', id);
        } else {
          assert ClientIn(w, j);
          Untouched(w, w', j);
        }
      }
      NothingSent(w, id);
    }
  }

  lemma SubmitTickWaits(c: Client)
    requires ClientOk(c) && Submits(c)
    ensures !c.waiting && SubmitTick(c).waiting
  {
  }

  lemma NothingSent(w: World, id: string)
    requires Inv(w) && id in w.clients && !w.clients[id].waiting
    ensures forall e | e in w.sent :: e.clientId != id
  {
    assert ClientIn(w, id);
  }

  // ----- the server commits --------------------------------------------------------------------------------------

  lemma ChangesSnoc(log: seq<Revision>, rev: Revision)
    ensures Changes(log + [rev]) == Changes(log) + [rev.changeset]
  {
  }

  lemma InStepGrows(init: string, log: seq<Revision>, rev: Revision, id: string, c: Client, queue: seq<Message>)
    requires InStep(init, log, id, c, queue) && Chain(init, Changes(log + [rev]))
    ensures InStep(init, log + [rev], id, c, queue + [MessageFor(id, rev, |log| + 1)])
  {
    hide Chain, ClientOk;
    ChangesSnoc(log, rev);
    TextAtStable(init, Changes(log), [rev.changeset], c.serverRev);
    assert Deliveries(id, log + [rev], c.serverRev)
        == Deliveries(id, log, c.serverRev) + [MessageFor(id, rev, |log| + 1)];
  }

  lemma TracksGrows(init: string, log: seq<Revision>, rev: Revision, id: string, c: Client, e: Edit)
    requires Tracks(init, log, id, c, e) && Chain(init, Changes(log + [rev]))
    ensures Tracks(init, log + [rev], id, c, e)
  {
    hide Chain, Rebased;
    ChangesSnoc(log, rev);
    ChainOpsOk(init, Changes(log + [rev]));
    TextAtStable(init, Changes(log), [rev.changeset], e.baseRev);
    assert Changes(log + [rev])[e.baseRev..c.serverRev] == Changes(log)[e.baseRev..c.serverRev];
  }

  lemma CommittedAsGrows(log: seq<Revision>, rev: Revision, id: string, c: Client, e: Edit, k: nat)
    requires CommittedAs(log, id, c, e, k) && rev.source != id && AllOpsOk(Changes(log + [rev]))
    ensures CommittedAs(log + [rev], id, c, e, k)
  {
    hide Rebased, AllOpsOk;
    ChangesSnoc(log, rev);
    assert Changes(log + [rev])[e.baseRev..k] == Changes(log)[e.baseRev..k];
  }

  /** A submission on its way is valid at its base revision and new, so it is applied, as itself rebased
      over what it missed. */
  lemma CommitApplies(w: World, e: Edit)
    requires Inv(w) && e in w.sent
    ensures Valid(e.changeset) && e.baseRev >= 0 && AllOpsOk(Changes(w.doc.revisionLog))
    ensures e.baseRev <= |w.doc.revisionLog| == w.doc.headRev
    ensures Outcomes(w.doc, e) == Applied(Rebased(e.changeset, Changes(w.doc.revisionLog)[e.baseRev..]),
                                          w.doc.headRev + 1, e.clientId)
    ensures NoAdjacentInserts(Outcomes(w.doc, e).cPrime.ops)
  {
    hide Chain, Rebased, Outcomes, InStep;
    var id := e.clientId;
    assert ClientIn(w, id);
    HeadText(w.init, w.doc);
    var cs := Changes(w.doc.revisionLog);
    assert Tracks(w.init, w.doc.revisionLog, id, w.clients[id], e);
    TimelyIsApplied(w.init, w.doc, e);
    ChainPrefix(w.init, cs, e.baseRev);
    RebasedValid(TextAt(w.init, cs, e.baseRev), e.changeset, cs[e.baseRev..]);
  }

  /** The author's client after the commit. */
  lemma AuthorOk(w: World, w': World, e: Edit, rev: Revision)
    requires ClientInWaiting(w, e) && e !in w'.sent
    requires w'.init == w.init && w'.clients == w.clients && w'.submitted == w.submitted
    requires w'.doc.revisionLog == w.doc.revisionLog + [rev] && Chain(w.init, Changes(w'.doc.revisionLog))
    requires rev.source == e.clientId && e.baseRev >= 0 && OpsOk(e.changeset.ops)
    requires AllOpsOk(Changes(w.doc.revisionLog)) && e.baseRev <= |w.doc.revisionLog|
    requires rev.changeset == Rebased(e.changeset, Changes(w.doc.revisionLog)[e.baseRev..])
    requires w'.doc.lastSubmission == w.doc.lastSubmission[e.clientId := e.submissionId]
    requires e.clientId in w'.inbox
    requires w'.inbox[e.clientId] == w.inbox[e.clientId] + [MessageFor(e.clientId, rev, |w.doc.revisionLog| + 1)]
    ensures ClientIn(w', e.clientId)
  {
    hide Chain, Rebased, ClientOk;
    var id, log := e.clientId, w.doc.revisionLog;
    var c := w.clients[id];
    InStepGrows(w.init, log, rev, id, c, w.inbox[id]);
    TracksGrows(w.init, log, rev, id, c, e);
    ChangesSnoc(log, rev);
    assert Changes(log + [rev])[e.baseRev..|log|] == Changes(log)[e.baseRev..];
    assert CommittedAs(log + [rev], id, c, e, |log|);
  }

  /** The client that sent `e` is waiting for it. */
  ghost predicate ClientInWaiting(w: World, e: Edit) {
    && e.clientId in w.clients && ClientIn(w, e.clientId)
    && w.clients[e.clientId].waiting && w.submitted[e.clientId] == e && e in w.sent
  }

  /** Any other client after the commit. */
  lemma BystanderOk(w: World, w': World, e: Edit, rev: Revision, j: string)
    requires j in w.clients && ClientIn(w, j) && j != e.clientId && rev.source == e.clientId
    requires w'.init == w.init && w'.clients == w.clients && w'.submitted == w.submitted && w'.sent == w.sent - {e}
    requires w'.doc.revisionLog == w.doc.revisionLog + [rev] && Chain(w.init, Changes(w'.doc.revisionLog))
    requires w'.doc.lastSubmission == w.doc.lastSubmission[e.clientId := e.submissionId]
    requires j in w'.inbox && w'.inbox[j] == w.inbox[j] + [MessageFor(j, rev, |w.doc.revisionLog| + 1)]
    ensures ClientIn(w', j)
  {
    hide Chain, Rebased, ClientOk;
    var log := w.doc.revisionLog;
    var c := w.clients[j];
    InStepGrows(w.init, log, rev, j, c, w.inbox[j]);
    ChainOpsOk(w.init, Changes(log + [rev]));
    if c.waiting {
      var f := w.submitted[j];
      TracksGrows(w.init, log, rev, j, c, f);
      if f !in w.sent {
        var k: nat :| CommittedAs(log, j, c, f, k);
        CommittedAsGrows(log, rev, j, c, f, k);
      }
    }
  }

  lemma CommitKeeps(w: World, w': World, e: Edit)
    requires Inv(w) && CommitStep(w, w', e)
    ensures Inv(w')
  {
    hide ClientIn, Chain, Rebased, DocOk, Outcomes;
    CommitApplies(w, e);
    var o := Outcomes(w.doc, e);
    var rev := Revision(w.doc.headRev, o.cPrime, e.clientId);
    ReceiveKeeps(w.init, w.doc, e);
    HeadText(w.init, w'.doc);
    assert w'.doc.revisionLog == w.doc.revisionLog + [rev];
    ChangesSnoc(w.doc.revisionLog, rev);
    forall j | j in w'.clients ensures ClientIn(w', j) {
      assert ClientIn(w, j);
      if j == e.clientId {
        AuthorOk(w, w', e, rev);
      } else {
        BystanderOk(w, w', e, rev, j);
      }
    }
  }

  // ----- a client hears --------------------------------------------------------------------------------------------

  /** The next message of a client is about the revision after its own, and it can take it in. */
  lemma NextMessage(w: World, id: string)
    requires Inv(w) && id in w.clients && w.inbox[id] != []
    ensures CanDeliver(w, id)
    ensures var c, log := w.clients[id], w.doc.revisionLog;
            && 0 <= c.serverRev < |log| && Chain(w.init, Changes(log))
            && w.inbox[id][0] == MessageFor(id, log[c.serverRev], c.serverRev + 1)
            && w.inbox[id][1..] == Deliveries(id, log, c.serverRev + 1)
            && ValidOn(log[c.serverRev].changeset, c.baseText) && NoAdjacentInserts(log[c.serverRev].changeset.ops)
            && Text(c.baseText, log[c.serverRev].changeset) == TextAt(w.init, Changes(log), c.serverRev + 1)
  {
    hide Chain, ClientOk, DocOk, Busy, Idle;
    assert ClientIn(w, id);
    var c, log := w.clients[id], w.doc.revisionLog;
    TextAtNext(w.init, Changes(log), c.serverRev);
    assert Changes(log)[c.serverRev] == log[c.serverRev].changeset;
    assert Deliveries(id, log, c.serverRev)[1..] == Deliveries(id, log, c.serverRev + 1);
    assert w.inbox[id][0] == MessageFor(id, log[c.serverRev], c.serverRev + 1);
  }

  /** X, rebased over the next revision, is still the submission rebased over what the client has seen. */
  lemma TracksNext(init: string, log: seq<Revision>, id: string, c: Client, c': Client, e: Edit)
    requires Tracks(init, log, id, c, e) && c.serverRev < |log|
    requires OpsOk(c.x.ops) && OpsOk(log[c.serverRev].changeset.ops)
    requires c'.x == Followed(log[c.serverRev].changeset, c.x)
    requires c'.nextId == c.nextId && c'.serverRev == c.serverRev + 1
    ensures Tracks(init, log, id, c', e)
  {
    hide Chain, Rebased, TextAt, NoAdjacentInserts, Followed, AllOpsOk, OpsOk;
    var cs, b, r := Changes(log), e.baseRev, c.serverRev;
    SliceSnoc(cs, b, r);
    AllOpsOkPart(cs, b, r);
    RebasedSnoc(e.changeset, cs[b..r], cs[r]);
    assert cs[r] == log[r].changeset;
  }

  lemma SliceSnoc(cs: seq<Changeset>, b: nat, r: nat)
    requires b <= r < |cs|
    ensures cs[b..r + 1] == cs[b..r] + [cs[r]]
  {
  }

  lemma AllOpsOkPart(cs: seq<Changeset>, b: nat, r: nat)
    requires AllOpsOk(cs) && b <= r < |cs|
    ensures AllOpsOk(cs[b..r]) && OpsOk(cs[r].ops)
  {
    hide OpsOk;
    var part := cs[b..r];
    forall i | 0 <= i < |part| ensures OpsOk(part[i].ops) {
      assert part[i] == cs[b + i];
    }
  }

  lemma CommittedAsNext(log: seq<Revision>, id: string, c: Client, c': Client, e: Edit, k: nat)
    requires CommittedAs(log, id, c, e, k) && log[c.serverRev].source != id && c'.serverRev == c.serverRev + 1
    ensures CommittedAs(log, id, c', e, k)
  {
    hide Rebased;
  }

  lemma SubmittedOpsOk(c: Client)
    requires ClientOk(c)
    ensures OpsOk(c.x.ops)
  {
  }

  lemma BroadcastHeard(w: World, w': World, id: string)
    requires Inv(w) && DeliverStep(w, w', id) && w.inbox[id][0].BroadcastMsg?
    ensures ClientIn(w', id)
  {
    hide Chain, ClientOk, DocOk, Rebased, TextAt, Deliveries, Tracks, CommittedAs;
    NextMessage(w, id);
    assert ClientIn(w, id);
    var c, c', log := w.clients[id], w'.clients[id], w.doc.revisionLog;
    var r := c.serverRev;
    var b := log[r].changeset;
    HandleBroadcastOk(c, b, r + 1);
    if c.waiting {
      var e := w.submitted[id];
      SubmittedOpsOk(c);
      TracksNext(w.init, log, id, c, c', e);
      if e !in w.sent {
        var k: nat :| CommittedAs(log, id, c, e, k);
        CommittedAsNext(log, id, c, c', e, k);
      }
    }
  }

  /** The acknowledged X is the very changeset the server committed. */
  lemma AckIsCommit(w: World, id: string)
    requires Inv(w) && id in w.clients && w.inbox[id] != [] && w.inbox[id][0].AckMsg?
    ensures var c, log := w.clients[id], w.doc.revisionLog;
            && c.waiting && 0 <= c.serverRev < |log| && id in w.submitted && w.submitted[id] !in w.sent
            && log[c.serverRev].source == id && c.x == log[c.serverRev].changeset
            && NoneBy(id, log, c.serverRev + 1, |log|)
  {
    hide Chain, ClientOk, DocOk, Rebased, TextAt, Deliveries;
    NextMessage(w, id);
    assert ClientIn(w, id);
    var c, log := w.clients[id], w.doc.revisionLog;
    var e := w.submitted[id];
    if c.waiting && e !in w.sent {
      var k: nat :| CommittedAs(log, id, c, e, k);
      assert k == c.serverRev;
    }
  }

  lemma AckHeard(w: World, w': World, id: string)
    requires Inv(w) && DeliverStep(w, w', id) && w.inbox[id][0].AckMsg?
    ensures ClientIn(w', id)
  {
    hide Chain, ClientOk, DocOk, Rebased, TextAt, Deliveries;
    NextMessage(w, id);
    AckIsCommit(w, id);
    assert ClientIn(w, id);
    HandleAckOk(w.clients[id], w.clients[id].serverRev + 1);
  }

  lemma DeliverKeeps(w: World, w': World, id: string)
    requires Inv(w) && DeliverStep(w, w', id)
    ensures Inv(w')
  {
    hide ClientIn, DocOk, ClientOk, CanDeliver, Delivered, AllNoAdjacent;
    DeliveredWaiting(w, id);
    forall j | j in w'.clients ensures ClientIn(w', j) {
      if j != id {
        assert ClientIn(w, j);
        Untouched(w, w', j);
      } else if w.inbox[id][0].AckMsg? {
        AckHeard(w, w', id);
      } else {
        BroadcastHeard(w, w', id);
      }
    }
    if w.inbox[id][0].AckMsg? {
      AckIsCommit(w, id);
    }
  }

  lemma DeliveredWaiting(w: World, id: string)
    requires CanDeliver(w, id)
    ensures id in w.clients && id in w.inbox && w.inbox[id] != []
    ensures Delivered(w, id).waiting == (w.clients[id].waiting && w.inbox[id][0].BroadcastMsg?)
  {
  }

  // ----- whole runs ----------------------------------------------------------------------------------------------------

  lemma NextKeeps(w: World, w': World, ev: Event)
    requires Inv(w) && Next(w, w', ev)
    ensures Inv(w')
  {
    hide Inv;
    match ev
    case Join(id, rev) => JoinKeeps(w, w', id, rev);
    case Type(id, text) => TypeKeeps(w, w', id, text);
    case Tick(id) => TickKeeps(w, w', id);
    case Commit(e) => CommitKeeps(w, w', e);
    case Deliver(id) => DeliverKeeps(w, w', id);
  }

  lemma {:induction false} SessionInv(s: Session, k: nat)
    requires IsSession(s) && k < |s.worlds|
    ensures Inv(s.worlds[k])
  {
    hide Inv, Next, Start;
    if k == 0 {
      StartInv(s.worlds[0]);
    } else {
      SessionInv(s, k - 1);
      NextKeeps(s.worlds[k - 1], s.worlds[k], s.events[k - 1]);
    }
  }

  /** In every state of every session: a client's base text is the server's text at the revision the
      client has reached; its submitted edit is the submission rebased over exactly the history it has
      seen; and its next message, if there is one, can be taken in. */
  lemma ClientsKnowTheServer(s: Session, k: nat, id: string)
    requires IsSession(s) && k < |s.worlds| && id in s.worlds[k].clients
    ensures var w := s.worlds[k];
            var c, cs := w.clients[id], Changes(w.doc.revisionLog);
            && Chain(w.init, cs) && Replay(w.init, cs) == w.doc.headText && w.doc.headRev == |cs|
            && 0 <= c.serverRev <= |cs| && c.baseText == TextAt(w.init, cs, c.serverRev)
            && (c.waiting ==> id in w.submitted && Tracks(w.init, w.doc.revisionLog, id, c, w.submitted[id]))
            && id in w.inbox && (w.inbox[id] != [] ==> CanDeliver(w, id))
  {
    hide Chain, IsSession, ClientOk, Rebased, Tracks;
    SessionInv(s, k);
    assert ClientIn(s.worlds[k], id);
    if s.worlds[k].inbox[id] != [] {
      NextMessage(s.worlds[k], id);
    }
  }

  /** Nothing but the user's typing and the changes of others touches a screen: of all events only typing
      and a broadcast change it, and typing puts on it what was typed. */
  lemma ScreensAreTheUsers(s: Session, k: nat, id: string)
    requires IsSession(s) && k < |s.events| && id in s.worlds[k].clients
    ensures k + 1 < |s.worlds| && id in s.worlds[k + 1].clients
    ensures var w, w', ev := s.worlds[k], s.worlds[k + 1], s.events[k];
            && (ev.Type? && ev.id == id ==> w'.clients[id].view == ev.text)
            && (w'.clients[id].view != w.clients[id].view ==>
                  (ev.Type? && ev.id == id)
                  || (ev == Deliver(id) && id in w.inbox && w.inbox[id] != [] && w.inbox[id][0].BroadcastMsg?))
  {
    hide Chain, DocOk, Rebased, TextAt, Deliveries, ClientOk, Inv;
    var w, w', ev := s.worlds[k], s.worlds[k + 1], s.events[k];
    assert Next(w, w', ev);
    SessionInv(s, k);
    ClientInOrder(w, id);
    if ev == Tick(id) {
      SubmitTickOk(w.clients[id]);
    } else if ev == Deliver(id) && w.inbox[id][0].AckMsg? {
      HandleAckOk(w.clients[id], w.inbox[id][0].newRev);
    }
  }

  lemma ClientInOrder(w: World, id: string)
    requires Inv(w) && id in w.clients
    ensures ClientOk(w.clients[id]) && 0 <= w.clients[id].serverRev <= |w.doc.revisionLog|
    ensures Chain(w.init, Changes(w.doc.revisionLog))
    ensures w.clients[id].baseText == TextAt(w.init, Changes(w.doc.revisionLog), w.clients[id].serverRev)
  {
    hide Chain, ClientOk, DocOk, Rebased, TextAt, Deliveries;
    assert ClientIn(w, id);
  }

  /** A submission takes the server's text at its base revision to what was on its author's screen at the
      tick. */
  lemma SubmissionIsTheScreen(s: Session, k: nat, id: string)
    requires IsSession(s) && k < |s.events| && s.events[k] == Tick(id) && id in s.worlds[k].clients
    requires ClientOk(s.worlds[k].clients[id]) && Submits(s.worlds[k].clients[id])
    ensures k + 1 < |s.worlds| && id in s.worlds[k + 1].submitted && s.worlds[k + 1].submitted[id] in s.worlds[k + 1].sent
    ensures var w, e := s.worlds[k], s.worlds[k + 1].submitted[id];
            var cs := Changes(w.doc.revisionLog);
            && e.clientId == id && e.submissionId == w.clients[id].nextId + 1
            && Chain(w.init, cs) && 0 <= e.baseRev <= |cs| && e.baseRev == w.clients[id].serverRev
            && ValidOn(e.changeset, TextAt(w.init, cs, e.baseRev))
            && Text(TextAt(w.init, cs, e.baseRev), e.changeset) == w.clients[id].view
  {
    hide Chain, DocOk, Rebased, TextAt, Deliveries, ClientOk, Inv, Submits;
    var w, w' := s.worlds[k], s.worlds[k + 1];
    assert Next(w, w', s.events[k]);
    SessionInv(s, k);
    ClientInOrder(w, id);
    SubmitTickOk(w.clients[id]);
  }

  /** What a broadcast puts on a screen: the merge of what its user has typed and the revision, carried over
      the submitted edit. */
  lemma BroadcastIsMerged(s: Session, k: nat, id: string)
    requires IsSession(s) && k < |s.events| && s.events[k] == Deliver(id)
    requires id in s.worlds[k].inbox && s.worlds[k].inbox[id] != [] && s.worlds[k].inbox[id][0].BroadcastMsg?
    ensures k + 1 < |s.worlds| && id in s.worlds[k].clients && id in s.worlds[k + 1].clients
    ensures var w, w' := s.worlds[k], s.worlds[k + 1];
            var c, c', log := w.clients[id], w'.clients[id], w.doc.revisionLog;
            && ClientOk(c) && 0 <= c.serverRev < |log|
            && var ax, edit := Text(c.baseText, c.x), LocalEdit(c);
            && ValidOn(edit, ax) && Text(ax, edit) == c.view
            && OpsOk(log[c.serverRev].changeset.ops)
            && var carried := Followed(c.x, log[c.serverRev].changeset);
            && ValidOn(carried, ax) && c'.view == Merged(ax, edit.ops, carried.ops)
            && c'.serverRev == c.serverRev + 1 && Inserted(c'.y.ops) == Inserted(edit.ops)
            && |KeepMarks(edit.ops)| == Consumed(carried.ops)
            && KeepMarks(c'.y.ops) == Carried(carried.ops, KeepMarks(edit.ops))
  {
    hide Chain, DocOk, Rebased, TextAt, Deliveries, ClientOk, Inv, Merged, KeepMarks, Carried, LocalEdit, HandleBroadcast;
    var w, w' := s.worlds[k], s.worlds[k + 1];
    assert Next(w, w', s.events[k]);
    SessionInv(s, k);
    NextMessage(w, id);
    var c := w.clients[id];
    BroadcastKeepsTyping(c, w.doc.revisionLog[c.serverRev].changeset, c.serverRev + 1);
  }

  /** When a client hears that its edit was committed, its base text becomes the server's text at the
      new revision, and the screen does not change. */
  lemma AckConverges(s: Session, k: nat, id: string)
    requires IsSession(s) && k < |s.events| && s.events[k] == Deliver(id)
    requires id in s.worlds[k].inbox && s.worlds[k].inbox[id] != [] && s.worlds[k].inbox[id][0].AckMsg?
    ensures k + 1 < |s.worlds| && id in s.worlds[k].clients && id in s.worlds[k + 1].clients
    ensures var w, w' := s.worlds[k], s.worlds[k + 1];
            var c, c', cs := w.clients[id], w'.clients[id], Changes(w.doc.revisionLog);
            && Chain(w.init, cs) && w.inbox[id][0] == AckMsg(c'.serverRev) && 1 <= c'.serverRev <= |cs|
            && cs[c'.serverRev - 1] == c.x && !c'.waiting
            && c'.baseText == TextAt(w.init, cs, c'.serverRev) && c'.view == c.view
  {
    hide Chain, ClientOk, DocOk, Rebased, TextAt, Deliveries, Inv, ClientIn;
    var w, w' := s.worlds[k], s.worlds[k + 1];
    assert Next(w, w', s.events[k]);
    SessionInv(s, k);
    NextMessage(w, id);
    AckIsCommit(w, id);
    HandleAckOk(w.clients[id], w.clients[id].serverRev + 1);
  }

  /** A client that has heard everything, waits for nothing and would submit nothing shows the server's
      text; so any two such clients show the same. */
  lemma QuiescentClientsAgree(s: Session, k: nat, id: string)
    requires IsSession(s) && k < |s.worlds| && id in s.worlds[k].clients
    requires id in s.worlds[k].inbox && s.worlds[k].inbox[id] == []
    requires ClientOk(s.worlds[k].clients[id]) && !s.worlds[k].clients[id].waiting && !Submits(s.worlds[k].clients[id])
    ensures s.worlds[k].clients[id].view == s.worlds[k].doc.headText
  {
    hide Chain, IsSession, ClientOk, DocOk, Submits;
    var w := s.worlds[k];
    SessionInv(s, k);
    assert ClientIn(w, id);
    var c := w.clients[id];
    assert |Deliveries(id, w.doc.revisionLog, c.serverRev)| == |w.doc.revisionLog| - c.serverRev;
    HeadText(w.init, w.doc);
    SubmitTickOk(c);
  }
}
