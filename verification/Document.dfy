/** The replicated document: a state machine that rebases every submitted changeset over the history
    it missed, applies it, and records it.

    `Receive` is the transition, `DocumentStateMachine` the object that makes it in place.  A
    submission comes out of the Raft log, where only validated changesets are proposed; a negative
    base revision would index the history out of range and is no submission. */
module Documents {
  import opened Changesets
  import opened Following
  import opened Cursors

  datatype Edit = Edit(clientId: string, submissionId: int, baseRev: int, changeset: Changeset)

  type Submission = e: Edit | Valid(e.changeset) && e.baseRev >= 0
    witness Edit("", 0, 0, Changeset(0, 0, []))

  datatype Revision = Revision(revNumber: int, changeset: Changeset, source: string)

  /** What became of a submission. */
  datatype Outcome =
    | Applied(cPrime: Changeset, newRev: int, clientId: string)
    | Duplicate(newRev: int, clientId: string)
    | Rejected

  datatype Doc = Doc(
    headText: string,
    headRev: int,
    revisionLog: seq<Revision>,
    lastSubmission: map<string, int>)

  function NewDoc(text: string): Doc {
    Doc(text, 0, [], map[])
  }

  // ----- history -----------------------------------------------------------------------------------------

  function Changes(log: seq<Revision>): seq<Changeset> {
    seq(|log|, i requires 0 <= i < |log| => log[i].changeset)
  }

  /** Each changeset is valid on the text its predecessors make of `text`. */
  predicate Chain(text: string, cs: seq<Changeset>)
    decreases |cs|
  {
    cs == [] || (ValidOn(cs[0], text) && Chain(Text(text, cs[0]), cs[1..]))
  }

  function Replay(text: string, cs: seq<Changeset>): string
    requires Chain(text, cs)
    decreases |cs|
  {
    if cs == [] then text else Replay(Text(text, cs[0]), cs[1..])
  }

  lemma {:induction false} ChainConcat(text: string, a: seq<Changeset>, b: seq<Changeset>)
    ensures Chain(text, a + b) <==> Chain(text, a) && Chain(Replay(text, a), b)
    ensures Chain(text, a + b) ==> Replay(text, a + b) == Replay(Replay(text, a), b)
    decreases |a|
  {
    if a == [] {
      assert a + b == b;
    } else {
      assert (a + b)[0] == a[0] && (a + b)[1..] == a[1..] + b;
      if ValidOn(a[0], text) {
        ChainConcat(Text(text, a[0]), a[1..], b);
      }
    }
  }

  /** The text at revision `r`. */
  function TextAt(text: string, cs: seq<Changeset>, r: nat): string
    requires Chain(text, cs) && r <= |cs|
  {
    ChainPrefix(text, cs, r);
    Replay(text, cs[..r])
  }

  lemma ChainPrefix(text: string, cs: seq<Changeset>, r: nat)
    requires Chain(text, cs) && r <= |cs|
    ensures Chain(text, cs[..r]) && Chain(Replay(text, cs[..r]), cs[r..])
    ensures Replay(Replay(text, cs[..r]), cs[r..]) == Replay(text, cs)
  {
    assert cs == cs[..r] + cs[r..];
    ChainConcat(text, cs[..r], cs[r..]);
  }

  /** The next revision is the next changeset applied. */
  lemma TextAtNext(text: string, cs: seq<Changeset>, r: nat)
    requires Chain(text, cs) && r < |cs|
    ensures ValidOn(cs[r], TextAt(text, cs, r))
    ensures TextAt(text, cs, r + 1) == Text(TextAt(text, cs, r), cs[r])
  {
    ChainPrefix(text, cs, r);
    ChainPrefix(text, cs, r + 1);
    assert cs[..r + 1] == cs[..r] + [cs[r]] && cs[r..][0] == cs[r];
    ChainConcat(text, cs[..r], [cs[r]]);
    assert [cs[r]][1..] == [];
    assert Replay(TextAt(text, cs, r), [cs[r]]) == Text(TextAt(text, cs, r), cs[r]);
  }

  lemma TextAtEnd(text: string, cs: seq<Changeset>)
    requires Chain(text, cs)
    ensures TextAt(text, cs, |cs|) == Replay(text, cs)
    ensures TextAt(text, cs, 0) == text
  {
    assert cs[..|cs|] == cs && cs[..0] == [];
  }

  lemma TextAtStable(text: string, cs: seq<Changeset>, more: seq<Changeset>, r: nat)
    requires Chain(text, cs + more) && r <= |cs|
    ensures Chain(text, cs) && TextAt(text, cs + more, r) == TextAt(text, cs, r)
  {
    ChainConcat(text, cs, more);
    assert (cs + more)[..r] == cs[..r];
  }

  // ----- rebasing ------------------------------------------------------------------------------------------

  predicate AllOpsOk(cs: seq<Changeset>) {
    forall i | 0 <= i < |cs| :: OpsOk(cs[i].ops)
  }

  predicate AllNoAdjacent(cs: seq<Changeset>) {
    forall i | 0 <= i < |cs| :: NoAdjacentInserts(cs[i].ops)
  }

  /** The loop of `Apply`: follow each changeset of the history in turn. */
  function Rebased(c: Changeset, cs: seq<Changeset>): (r: Changeset)
    requires OpsOk(c.ops) && AllOpsOk(cs)
    ensures OpsOk(r.ops)
    decreases |cs|
  {
    if cs == [] then c
    else
      FollowedOpsOk(cs[0], c);
      Rebased(Followed(cs[0], c), cs[1..])
  }

  lemma {:induction false} RebasedSnoc(c: Changeset, cs: seq<Changeset>, d: Changeset)
    requires OpsOk(c.ops) && AllOpsOk(cs) && OpsOk(d.ops)
    ensures AllOpsOk(cs + [d]) && Rebased(c, cs + [d]) == Followed(d, Rebased(c, cs))
    decreases |cs|
  {
    if cs == [] {
      assert cs + [d] == [d] && [d][1..] == [];
      FollowedOpsOk(d, c);
    } else {
      assert (cs + [d])[0] == cs[0] && (cs + [d])[1..] == cs[1..] + [d];
      FollowedOpsOk(cs[0], c);
      RebasedSnoc(Followed(cs[0], c), cs[1..], d);
    }
  }

  lemma {:induction false} ChainOpsOk(text: string, cs: seq<Changeset>)
    requires Chain(text, cs)
    ensures AllOpsOk(cs)
    decreases |cs|
  {
    if cs != [] {
      ChainOpsOk(Text(text, cs[0]), cs[1..]);
      forall i | 0 <= i < |cs| ensures OpsOk(cs[i].ops) {
        assert i > 0 ==> cs[i] == cs[1..][i - 1];
      }
    }
  }

  /** A changeset valid where the history starts is valid, once rebased, where it ends. */
  lemma {:induction false} RebasedValid(text: string, c: Changeset, cs: seq<Changeset>)
    requires Chain(text, cs) && ValidOn(c, text)
    ensures AllOpsOk(cs) && ValidOn(Rebased(c, cs), Replay(text, cs))
    ensures NoAdjacentInserts(c.ops) ==> NoAdjacentInserts(Rebased(c, cs).ops)
    decreases |cs|
  {
    ChainOpsOk(text, cs);
    if cs != [] {
      FollowedMeaning(text, cs[0], c);
      FollowedOk(cs[0], c);
      RebasedValid(Text(text, cs[0]), Followed(cs[0], c), cs[1..]);
    }
  }

  /** The history as it would have been had `c` come first: each changeset rebased over `c` as far as
      it had been rebased itself. */
  function Shifted(c: Changeset, cs: seq<Changeset>): seq<Changeset>
    requires OpsOk(c.ops) && AllOpsOk(cs)
    decreases |cs|
  {
    if cs == [] then []
    else
      FollowedOpsOk(cs[0], c);
      [Followed(c, cs[0])] + Shifted(Followed(cs[0], c), cs[1..])
  }

  /** A late edit is as good as a timely one: rebasing `c` over the history and applying it at the head
      gives the text of applying `c` first and then the shifted history, however long it is. */
  lemma {:induction false} LateEdit(text: string, c: Changeset, cs: seq<Changeset>)
    requires Chain(text, cs) && ValidOn(c, text) && NoAdjacentInserts(c.ops) && AllNoAdjacent(cs)
    ensures AllOpsOk(cs) && ValidOn(Rebased(c, cs), Replay(text, cs))
    ensures Chain(Text(text, c), Shifted(c, cs))
    ensures Text(Replay(text, cs), Rebased(c, cs)) == Replay(Text(text, c), Shifted(c, cs))
    decreases |cs|
  {
    ChainOpsOk(text, cs);
    RebasedValid(text, c, cs);
    if cs != [] {
      Converges(text, cs[0], c);
      FollowedOk(cs[0], c);
      LateEdit(Text(text, cs[0]), Followed(cs[0], c), cs[1..]);
      assert Shifted(c, cs)[1..] == Shifted(Followed(cs[0], c), cs[1..]);
    }
  }

  // ----- the transition -------------------------------------------------------------------------------------

  /** The document is in order: its head is what the history makes of the initial text. */
  predicate DocOk(init: string, d: Doc) {
    && d.headRev == |d.revisionLog|
    && Chain(init, Changes(d.revisionLog))
    && Replay(init, Changes(d.revisionLog)) == d.headText
    && (forall i | 0 <= i < |d.revisionLog| :: d.revisionLog[i].revNumber == i)
  }

  /** The history from `baseRev` on; nothing, if `baseRev` lies past the head. */
  function Missed(d: Doc, baseRev: nat): seq<Changeset> {
    if baseRev <= |d.revisionLog| then Changes(d.revisionLog)[baseRev..] else []
  }

  predicate Seen(d: Doc, e: Edit) {
    e.clientId in d.lastSubmission && e.submissionId <= d.lastSubmission[e.clientId]
  }

  predicate Fits(c: Changeset, text: string) {
    c.oldLen == |text| && Consumed(c.ops) == |text|
  }

  function Outcomes(d: Doc, e: Submission): Outcome
    requires AllOpsOk(Changes(d.revisionLog))
  {
    if Seen(d, e) then Duplicate(d.headRev, e.clientId)
    else
      var c := Rebased(e.changeset, Missed(d, e.baseRev));
      if Fits(c, d.headText) then Applied(c, d.headRev + 1, e.clientId) else Rejected
  }

  function Receive(d: Doc, e: Submission): Doc
    requires AllOpsOk(Changes(d.revisionLog))
  {
    var o := Outcomes(d, e);
    if o.Applied? then
      Doc(Apply(d.headText, o.cPrime.ops), d.headRev + 1,
          d.revisionLog + [Revision(d.headRev, o.cPrime, e.clientId)],
          d.lastSubmission[e.clientId := e.submissionId])
    else d
  }

  lemma DocOpsOk(init: string, d: Doc)
    requires DocOk(init, d)
    ensures AllOpsOk(Changes(d.revisionLog))
  {
    ChainOpsOk(init, Changes(d.revisionLog));
  }

  /** The rebased changeset is valid on the head whenever its length fits. */
  lemma FittingIsValid(d: Doc, e: Submission)
    requires AllOpsOk(Changes(d.revisionLog))
    ensures var c := Rebased(e.changeset, Missed(d, e.baseRev));
            Produced(c.ops) == c.newLen && (Fits(c, d.headText) ==> ValidOn(c, d.headText))
  {
    var cs := Missed(d, e.baseRev);
    if cs != [] {
      var front, last := cs[..|cs| - 1], cs[|cs| - 1];
      assert cs == front + [last];
      RebasedSnoc(e.changeset, front, last);
      FollowedOpsOk(last, Rebased(e.changeset, front));
    }
  }

  /** Whatever is submitted, the history stays replayable and its replay is the head. */
  lemma ReceiveKeeps(init: string, d: Doc, e: Submission)
    requires DocOk(init, d)
    ensures AllOpsOk(Changes(d.revisionLog)) && DocOk(init, Receive(d, e))
    ensures d.revisionLog <= Receive(d, e).revisionLog
  {
    DocOpsOk(init, d);
    var o, d' := Outcomes(d, e), Receive(d, e);
    if o.Applied? {
      FittingIsValid(d, e);
      var cs := Changes(d.revisionLog);
      assert Changes(d'.revisionLog) == cs + [o.cPrime];
      ChainConcat(init, cs, [o.cPrime]);
      assert [o.cPrime][1..] == [];
      assert Replay(d.headText, [o.cPrime]) == Text(d.headText, o.cPrime);
    }
  }

  /** A changeset valid at a revision of the history is never rejected, and what is applied for it is
      the changeset rebased over exactly the revisions it missed. */
  lemma TimelyIsApplied(init: string, d: Doc, e: Submission)
    requires DocOk(init, d) && e.baseRev <= d.headRev && !Seen(d, e)
    requires ValidOn(e.changeset, TextAt(init, Changes(d.revisionLog), e.baseRev))
    ensures AllOpsOk(Changes(d.revisionLog))
    ensures Outcomes(d, e) == Applied(Rebased(e.changeset, Changes(d.revisionLog)[e.baseRev..]), d.headRev + 1, e.clientId)
    ensures ValidOn(Outcomes(d, e).cPrime, d.headText)
    ensures Receive(d, e).headText == Text(d.headText, Outcomes(d, e).cPrime)
  {
    var cs := Changes(d.revisionLog);
    DocOpsOk(init, d);
    ChainPrefix(init, cs, e.baseRev);
    RebasedValid(TextAt(init, cs, e.baseRev), e.changeset, cs[e.baseRev..]);
  }

  lemma HeadRevision(init: string, d: Doc)
    requires DocOk(init, d)
    ensures d.headRev == |d.revisionLog|
  {
  }

  lemma RebasedNone(c: Changeset)
    requires OpsOk(c.ops)
    ensures Rebased(c, []) == c
  {
  }

  /** One turn of the rebasing loop. */
  lemma RebasedStep(d: Doc, c: Changeset, r: nat)
    requires OpsOk(c.ops) && AllOpsOk(Changes(d.revisionLog)) && r < |d.revisionLog|
    ensures var historical := d.revisionLog[r].changeset;
            && OpsOk(historical.ops) && OpsOk(Followed(historical, c).ops)
            && Rebased(c, Missed(d, r)) == Rebased(Followed(historical, c), Missed(d, r + 1))
  {
    hide Followed, OpsOk;
    var cs, historical := Changes(d.revisionLog), d.revisionLog[r].changeset;
    assert cs[r] == historical;
    FollowedOpsOk(historical, c);
    assert cs[r..][0] == historical && cs[r..][1..] == cs[r + 1..];
  }

  /** A base revision the history has not reached counts as its head. */
  lemma FutureIsHead(init: string, d: Doc, e: Submission)
    requires DocOk(init, d) && e.baseRev >= d.headRev
    ensures AllOpsOk(Changes(d.revisionLog)) && 0 <= d.headRev
    ensures Outcomes(d, e) == Outcomes(d, e.(baseRev := d.headRev)) && Receive(d, e) == Receive(d, e.(baseRev := d.headRev))
  {
    DocOpsOk(init, d);
  }

  /** What becomes of a submission, and what it leaves behind: a duplicate or a rejection leaves everything as
      it was; an application adds one revision by its author and remembers its number. */
  lemma WhatBecomes(init: string, d: Doc, e: Submission)
    requires DocOk(init, d)
    ensures AllOpsOk(Changes(d.revisionLog))
    ensures Outcomes(d, e).Duplicate? <==> e.clientId in d.lastSubmission && e.submissionId <= d.lastSubmission[e.clientId]
    ensures !Outcomes(d, e).Applied? ==> Receive(d, e) == d
    ensures Outcomes(d, e).Applied? ==>
              && |Receive(d, e).revisionLog| == |d.revisionLog| + 1 && Receive(d, e).headRev == d.headRev + 1
              && Outcomes(d, e).newRev == d.headRev + 1 && Outcomes(d, e).clientId == e.clientId
              && Receive(d, e).revisionLog[|d.revisionLog|].source == e.clientId
              && Receive(d, e).revisionLog[|d.revisionLog|].changeset == Outcomes(d, e).cPrime
              && e.clientId in Receive(d, e).lastSubmission && Receive(d, e).lastSubmission[e.clientId] == e.submissionId
              && (forall id | id != e.clientId :: (id in Receive(d, e).lastSubmission <==> id in d.lastSubmission)
                    && (id in d.lastSubmission ==> Receive(d, e).lastSubmission[id] == d.lastSubmission[id]))
  {
    DocOpsOk(init, d);
  }

  // ----- exactly once -------------------------------------------------------------------------------------------

  /** The document after a sequence of submissions. */
  function ReceiveAll(init: string, es: seq<Submission>): (d: Doc)
    ensures DocOk(init, d)
    decreases |es|
  {
    if es == [] then NewDoc(init)
    else
      var d := ReceiveAll(init, es[..|es| - 1]);
      ReceiveKeeps(init, d, es[|es| - 1]);
      Receive(d, es[|es| - 1])
  }

  /** What becomes of submission `i`. */
  function OutcomeAt(init: string, es: seq<Submission>, i: nat): Outcome
    requires i < |es|
  {
    DocOpsOk(init, ReceiveAll(init, es[..i]));
    Outcomes(ReceiveAll(init, es[..i]), es[i])
  }

  lemma ReceiveNext(init: string, es: seq<Submission>, i: nat)
    requires i < |es|
    ensures AllOpsOk(Changes(ReceiveAll(init, es[..i]).revisionLog))
    ensures ReceiveAll(init, es[..i + 1]) == Receive(ReceiveAll(init, es[..i]), es[i])
  {
    DocOpsOk(init, ReceiveAll(init, es[..i]));
    assert es[..i + 1][..i] == es[..i];
  }

  /** The last submission applied for a client only grows. */
  lemma {:induction false} LastGrows(init: string, es: seq<Submission>, i: nat, j: nat, client: string)
    requires i <= j <= |es| && client in ReceiveAll(init, es[..i]).lastSubmission
    ensures client in ReceiveAll(init, es[..j]).lastSubmission
    ensures ReceiveAll(init, es[..i]).lastSubmission[client] <= ReceiveAll(init, es[..j]).lastSubmission[client]
    decreases j
  {
    hide ReceiveAll, Rebased, Fits, DocOk;
    if i < j {
      LastGrows(init, es, i, j - 1, client);
      ReceiveNext(init, es, j - 1);
    }
  }

  /** Exactly once: of one client's submissions the applied ones have strictly increasing numbers, and a
      later submission with a number no greater than an applied one is a duplicate that changes nothing. */
  lemma ExactlyOnce(init: string, es: seq<Submission>, i: nat, j: nat)
    requires i < j < |es| && es[i].clientId == es[j].clientId && OutcomeAt(init, es, i).Applied?
    ensures OutcomeAt(init, es, j).Applied? ==> es[i].submissionId < es[j].submissionId
    ensures es[j].submissionId <= es[i].submissionId ==>
              && OutcomeAt(init, es, j).Duplicate?
              && ReceiveAll(init, es[..j + 1]) == ReceiveAll(init, es[..j])
  {
    ReceiveNext(init, es, i);
    LastGrows(init, es, i + 1, j, es[i].clientId);
    ReceiveNext(init, es, j);
  }

  // ----- the object -----------------------------------------------------------------------------------------------

  class DocumentStateMachine {
    var headText: string
    var headRev: int
    var revisionLog: seq<Revision>
    var clientLastSubmission: map<string, int>
    ghost const init: string

    ghost function View(): Doc
      reads this
    {
      Doc(headText, headRev, revisionLog, clientLastSubmission)
    }

    ghost predicate Valid()
      reads this
    {
      DocOk(init, View())
    }

    constructor (initialText: string)
      ensures Valid() && View() == NewDoc(initialText) && init == initialText
    {
      headText, headRev, revisionLog, clientLastSubmission := initialText, 0, [], map[];
      init := initialText;
    }

    /** The loop of `Apply`: follow every revision since `baseRev`. */
    method Rebase(changeset: Changeset, baseRev: nat) returns (c: Changeset)
      requires Valid() && OpsOk(changeset.ops)
      ensures AllOpsOk(Changes(revisionLog)) && c == Rebased(changeset, Missed(View(), baseRev))
    {
      hide DocOk, OpsOk, Followed, Rebased;
      DocOpsOk(init, View());
      c := changeset;
      var r := baseRev;
      HeadRevision(init, View());
      while r < headRev
        invariant baseRev <= r && (baseRev <= headRev ==> r <= headRev) && OpsOk(c.ops)
        invariant Rebased(c, Missed(View(), r)) == Rebased(changeset, Missed(View(), baseRev))
      {
        var historical := revisionLog[r].changeset;
        RebasedStep(View(), c, r);
        c := Follow(historical, c);
        r := r + 1;
      }
      assert Missed(View(), r) == [];
      RebasedNone(c);
    }

    /** `Apply`: skip a duplicate, rebase, apply, record. */
    method Apply(entry: Submission) returns (result: Outcome)
      requires Valid()
      modifies this
      ensures Valid()
      ensures AllOpsOk(Changes(old(revisionLog)))
      ensures View() == Receive(old(View()), entry)
      ensures result == Outcomes(old(View()), entry)
    {
      hide Rebased, AllOpsOk, DocOk, Changes, Consumed, Produced;
      ReceiveKeeps(init, View(), entry);
      if entry.clientId in clientLastSubmission && entry.submissionId <= clientLastSubmission[entry.clientId] {
        return Duplicate(headRev, entry.clientId);
      }
      var c := Rebase(entry.changeset, entry.baseRev);
      OkReadable(c.ops);
      FittingIsValid(View(), entry);
      ProducedNat(c.ops);
      var newText := ApplyChangeset(headText, c);
      if !newText.Done? {
        return Rejected;
      }
      revisionLog := revisionLog + [Revision(headRev, c, entry.clientId)];
      headText := newText.value;
      headRev := headRev + 1;
      clientLastSubmission := clientLastSubmission[entry.clientId := entry.submissionId];
      result := Applied(c, headRev, entry.clientId);
    }

    /** `RevisionsSince`: replaying it from the text at `fromRev` gives the head. */
    method RevisionsSince(fromRev: nat) returns (revs: seq<Revision>)
      requires Valid()
      ensures fromRev <= |revisionLog| ==>
                && Chain(TextAt(init, Changes(revisionLog), fromRev), Changes(revs))
                && Replay(TextAt(init, Changes(revisionLog), fromRev), Changes(revs)) == headText
      ensures fromRev <= |revisionLog| ==> revisionLog[..fromRev] + revs == revisionLog
      ensures fromRev > |revisionLog| ==> revs == []
    {
      if fromRev >= |revisionLog| {
        revs := [];
      } else {
        revs := revisionLog[fromRev..];
      }
      if fromRev <= |revisionLog| {
        ChainPrefix(init, Changes(revisionLog), fromRev);
        assert Changes(revs) == Changes(revisionLog)[fromRev..];
      }
    }
  }
}
