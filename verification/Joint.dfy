/** The whole system in one run: a Raft cluster, a document on every replica, and clients that are
    connected to different replicas, some of them behind the others or restarted.

    Nothing here is shared between replicas but the messages of Raft: a client is given the document of
    the replica it joins, hears from that replica only, and its submission reaches the log through
    whichever server leads.  A submission on its way is proposed at most once; a replica that crashes
    loses its connections.  How an edit is written as bytes is left open. */
module JointRuns {
  import R = Raft
  import C = Cluster
  import L = ApplyLoops
  import opened Changesets
  import opened Documents
  import opened Clients
  import K = Collaboration
  import opened EndToEnd

  datatype Setup = Setup(init: string, encode: Edit -> R.Bytes, decode: Decoder)

  /** Reading back what was written; no edit is written as the empty command, which is the no-op. */
  ghost predicate RoundTrips(c: Setup) {
    forall e: Submission :: c.encode(e) != [] && c.decode(c.encode(e)) == Command(e)
  }

  /** `attached` are the open connections, `queue` the messages on them, and `pending` the submissions on
      their way to a leader. */
  datatype Joint = Joint(
    cluster: C.State,
    clients: map<string, Client>,
    attached: map<string, R.Id>,
    queue: map<string, seq<K.Message>>,
    pending: set<Edit>)

  // ----- the steps ---------------------------------------------------------------------------------------

  function Replica(c: Setup, j: Joint, p: R.Id): (d: Doc)
    requires p in j.cluster.nodes
    ensures DocOk(c.init, d)
  {
    DocumentOf(c.init, c.decode, j.cluster.nodes[p])
  }

  /** What a replica with document `d` sends to its client `id` when it applies an entry. */
  function Published(c: Setup, d: Doc, entry: R.Entry, id: string): seq<K.Message>
    requires AllOpsOk(Changes(d.revisionLog))
  {
    if entry.data == [] then []
    else match c.decode(entry.data)
      case Malformed => []
      case Command(e) =>
        match Outcomes(d, e)
        case Applied(changeset, rev, _) => [K.MessageFor(id, Revision(d.headRev, changeset, e.clientId), rev)]
        case Duplicate(rev, author) => if id == author then [K.AckMsg(rev)] else []
        case Rejected => []
  }

  /** A step of the cluster.  Commands are appended by `Propose` only. */
  ghost predicate ClusterStep(c: Setup, j: Joint, j': Joint, step: C.Step) {
    && C.Next(j.cluster, j'.cluster, step) && (step.Append? ==> step.data == [])
    && j'.clients == j.clients && j'.pending == j.pending
    && j'.attached == (map id | id in j.attached && !L.Crashes(step, j.attached[id]) :: j.attached[id])
    && j'.queue.Keys == j.queue.Keys
    && forall id | id in j.queue ::
         if step.Apply? && id in j.attached && j.attached[id] == step.i
         then Applies(c, j, step.i, id, j'.queue[id])
         else j'.queue[id] == j.queue[id]
  }

  /** The queue of `id` after replica `p` has applied its next entry. */
  ghost predicate Applies(c: Setup, j: Joint, p: R.Id, id: string, queue: seq<K.Message>) {
    && p in j.cluster.nodes && j.cluster.nodes[p].lastApplied < |j.cluster.nodes[p].log| && id in j.queue
    && AllOpsOk(Changes(Replica(c, j, p).revisionLog))
    && var n := j.cluster.nodes[p];
       queue == j.queue[id] + Published(c, Replica(c, j, p), n.log[n.lastApplied], id)
  }

  /** A leader validates a submission and appends it. */
  ghost predicate ProposeStep(c: Setup, j: Joint, j': Joint, i: R.Id, e: Edit) {
    && e in j.pending && Valid(e.changeset) && e.baseRev >= 0
    && C.Next(j.cluster, j'.cluster, C.Append(i, c.encode(e)))
    && j' == j.(cluster := j'.cluster, pending := j.pending - {e})
  }

  ghost predicate JoinStep(c: Setup, j: Joint, j': Joint, id: string, p: R.Id) {
    && id !in j.clients && p in j.cluster.nodes
    && var d := Replica(c, j, p);
       j' == j.(clients := j.clients[id := Connect(d.headText, d.headRev)],
                attached := j.attached[id := p], queue := j.queue[id := []])
  }

  ghost predicate TypeStep(j: Joint, j': Joint, id: string, text: string) {
    && id in j.clients && j' == j.(clients := j.clients[id := TypeText(j.clients[id], text)])
  }

  ghost predicate TickStep(j: Joint, j': Joint, id: string) {
    && id in j.clients && id in j.attached && ClientOk(j.clients[id]) && Submits(j.clients[id])
    && var x := SubmitTick(j.clients[id]);
       j' == j.(clients := j.clients[id := x], pending := j.pending + {Edit(id, x.nextId, x.serverRev, x.x)})
  }

  /** The handlers' demands on the next message of `id`. */
  ghost predicate CanHear(j: Joint, id: string) {
    && id in j.clients && id in j.attached && id in j.queue && j.queue[id] != [] && ClientOk(j.clients[id])
    && (j.queue[id][0].BroadcastMsg? ==> ValidOn(j.queue[id][0].changeset, j.clients[id].baseText))
  }

  ghost predicate HearStep(j: Joint, j': Joint, id: string) {
    && CanHear(j, id)
    && var x := match j.queue[id][0]
                case AckMsg(rev) => HandleAck(j.clients[id], rev)
                case BroadcastMsg(b, rev) => HandleBroadcast(j.clients[id], b, rev);
       j' == j.(clients := j.clients[id := x], queue := j.queue[id := j.queue[id][1..]])
  }

  datatype Event =
    | Raft(step: C.Step)
    | Propose(i: R.Id, edit: Edit)
    | Join(id: string, p: R.Id)
    | Type(id: string, text: string)
    | Tick(id: string)
    | Hear(id: string)

  ghost predicate Next(c: Setup, j: Joint, j': Joint, ev: Event) {
    match ev
    case Raft(step) => ClusterStep(c, j, j', step)
    case Propose(i, e) => ProposeStep(c, j, j', i, e)
    case Join(id, p) => JoinStep(c, j, j', id, p)
    case Type(id, text) => TypeStep(j, j', id, text)
    case Tick(id) => TickStep(j, j', id)
    case Hear(id) => HearStep(j, j', id)
  }

  ghost predicate Start(j: Joint) {
    C.Init(j.cluster) && C.SafeCluster(j.cluster.policy, j.cluster.servers) && j == Joint(j.cluster, map[], map[], map[], {})
  }

  datatype JointRun = JointRun(joints: seq<Joint>, events: seq<Event>)

  ghost predicate IsJointRun(c: Setup, r: JointRun) {
    && |r.joints| == |r.events| + 1 && Start(r.joints[0])
    && forall k | 0 <= k < |r.events| :: Next(c, r.joints[k], r.joints[k + 1], r.events[k])
  }
}
