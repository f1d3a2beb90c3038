/** The two halves together: the document a replica holds is a function of the log entries it has
    applied, so the safety of the log is the agreement of the documents.

    How a command is written as bytes is not modelled: the theorems hold for every decoder. */
module EndToEnd {
  import R = Raft
  import C = Cluster
  import S = RaftSafety
  import opened Documents

  datatype Decoded = Malformed | Command(submission: Submission)

  type Decoder = R.Bytes -> Decoded

  // ----- the document of a replica ------------------------------------------------------------------------

  /** The submissions among the applied entries: a no-op is skipped, and a malformed command is logged
      and dropped. */
  function Commands(decode: Decoder, entries: seq<R.Entry>): (es: seq<Submission>)
    ensures |es| <= |entries|
    decreases |entries|
  {
    if entries == [] then []
    else
      var front, last := entries[..|entries| - 1], entries[|entries| - 1].data;
      var es := Commands(decode, front);
      if last == [] then es
      else match decode(last)
        case Malformed => es
        case Command(e) => es + [e]
  }

  lemma {:induction false} CommandsGrow(decode: Decoder, shorter: seq<R.Entry>, longer: seq<R.Entry>)
    requires shorter <= longer
    ensures Commands(decode, shorter) <= Commands(decode, longer)
    decreases |longer|
  {
    if |shorter| < |longer| {
      CommandsGrow(decode, shorter, longer[..|longer| - 1]);
    } else {
      assert shorter == longer;
    }
  }

  function DocumentOf(init: string, decode: Decoder, n: R.Node): (d: Doc)
    ensures DocOk(init, d)
  {
    ReceiveAll(init, Commands(decode, n.applied))
  }

  /** More submissions only add revisions; the old head stays a revision of the history. */
  lemma {:induction false} ReceiveAllGrows(init: string, shorter: seq<Submission>, longer: seq<Submission>)
    requires shorter <= longer
    ensures ReceiveAll(init, shorter).revisionLog <= ReceiveAll(init, longer).revisionLog
    decreases |longer|
  {
    if |shorter| < |longer| {
      var front := longer[..|longer| - 1];
      ReceiveAllGrows(init, shorter, front);
      ReceiveKeeps(init, ReceiveAll(init, front), longer[|longer| - 1]);
    } else {
      assert shorter == longer;
    }
  }

  /** `d` is document `e` as it was at some revision. */
  predicate IsPastOf(init: string, d: Doc, e: Doc)
    requires DocOk(init, e)
  {
    && 0 <= d.headRev <= e.headRev && d.revisionLog == e.revisionLog[..d.headRev]
    && d.headText == TextAt(init, Changes(e.revisionLog), d.headRev)
  }

  lemma PastOf(init: string, d: Doc, e: Doc)
    requires DocOk(init, d) && DocOk(init, e) && d.revisionLog <= e.revisionLog
    ensures IsPastOf(init, d, e)
  {
    assert Changes(e.revisionLog)[..d.headRev] == Changes(d.revisionLog);
  }

  // ----- replicas agree ------------------------------------------------------------------------------------

  /** At any two moments of any run, of any two servers' applied logs one is a prefix of the other. */
  lemma AppliedPrefix(r: C.Run, j: nat, k: nat, a: R.Id, b: R.Id)
    requires C.IsRun(r) && j < |r.states| && k < |r.states|
    requires a in r.states[j].nodes && b in r.states[k].nodes
    requires |r.states[j].nodes[a].applied| <= |r.states[k].nodes[b].applied|
    ensures r.states[j].nodes[a].applied <= r.states[k].nodes[b].applied
  {
    hide C.IsRun;
    forall x: nat | x < |r.states[j].nodes[a].applied|
      ensures r.states[j].nodes[a].applied[x] == r.states[k].nodes[b].applied[x]
    {
      S.StateMachineSafety(r, j, k, a, b, x);
    }
  }

  /** Replicas that have applied equally many entries, at whatever moments of the run and whatever
      crashes lie between, hold the same document; a replica that has applied fewer holds an earlier
      revision of it. */
  lemma ReplicasAgree(r: C.Run, j: nat, k: nat, a: R.Id, b: R.Id, init: string, decode: Decoder)
    requires C.IsRun(r) && j < |r.states| && k < |r.states|
    requires a in r.states[j].nodes && b in r.states[k].nodes
    requires |r.states[j].nodes[a].applied| <= |r.states[k].nodes[b].applied|
    ensures var m, n := r.states[j].nodes[a], r.states[k].nodes[b];
            && IsPastOf(init, DocumentOf(init, decode, m), DocumentOf(init, decode, n))
            && (|m.applied| == |n.applied| ==> DocumentOf(init, decode, m) == DocumentOf(init, decode, n))
  {
    hide C.IsRun, DocOk, ReceiveAll;
    var m, n := r.states[j].nodes[a], r.states[k].nodes[b];
    AppliedPrefix(r, j, k, a, b);
    CommandsGrow(decode, m.applied, n.applied);
    ReceiveAllGrows(init, Commands(decode, m.applied), Commands(decode, n.applied));
    PastOf(init, DocumentOf(init, decode, m), DocumentOf(init, decode, n));
    assert |m.applied| == |n.applied| ==> m.applied == n.applied;
  }

  /** A submission proposed again, for instance through a new leader, is applied at most once by every
      replica: where an earlier copy was applied, the later copy leaves the document alone. */
  lemma AppliedOnce(n: R.Node, init: string, decode: Decoder, i: nat, j: nat)
    requires i < j < |Commands(decode, n.applied)|
    requires var es := Commands(decode, n.applied);
             && es[i].clientId == es[j].clientId && es[i].submissionId == es[j].submissionId
             && OutcomeAt(init, es, i).Applied?
    ensures var es := Commands(decode, n.applied);
            OutcomeAt(init, es, j).Duplicate? && ReceiveAll(init, es[..j + 1]) == ReceiveAll(init, es[..j])
  {
    ExactlyOnce(init, Commands(decode, n.applied), i, j);
  }
}
