/** The browser client: the server's text A, the submitted edit X, the local edit Y, and the text on
    the screen.

    The transitions are functions; `Editor` is the object whose handlers make them in place.  The
    client's follow, compose, diff and apply are the same algorithms as the server's and are not
    repeated. */
module Clients {
  import opened Changesets
  import opened Following
  import opened FollowMarks
  import opened Cursors
  import opened Composing
  import opened Diffing

  datatype Client = Client(
    a: Changeset,
    x: Changeset,
    y: Changeset,
    serverRev: int,
    baseText: string,
    view: string,
    waiting: bool,
    nextId: int)

  /** What a submission tells the server. */
  datatype Submit = Submit(submissionId: int, baseRev: int, changeset: Changeset)

  /** The client's own identity test, which does not look at the operations of an empty change. */
  predicate IsNoChange(c: Changeset) {
    c.oldLen == c.newLen && (c.oldLen == 0 || (|c.ops| == 1 && c.ops[0] == Retain(c.oldLen)))
  }

  /** On valid changesets the client's identity test and the server's are the same. */
  lemma IdentityTestsAgree(c: Changeset)
    requires Valid(c)
    ensures IsNoChange(c) <==> IsIdentity(c)
  {
    if c.ops != [] {
      OkReadable(c.ops[1..]);
      ProducedNat(c.ops[1..]);
    }
  }

  /** A whole text as a changeset of the empty text. */
  function Whole(text: string): Changeset {
    Changeset(0, |text|, if text == [] then [] else [Insert(text)])
  }

  /** The client knows the server's text, and its submitted edit applies to it; nothing is submitted
      while it is not waiting. */
  predicate ClientOk(c: Client) {
    && ValidOn(c.a, "") && Text("", c.a) == c.baseText
    && ValidOn(c.x, c.baseText) && NoAdjacentInserts(c.x.ops)
    && (!c.waiting ==> c.x == Identity(|c.baseText|))
  }

  /** A, X and Y together are what is on the screen. */
  predicate ViewOk(c: Client) {
    && ValidOn(c.x, c.baseText)
    && ValidOn(c.y, Text(c.baseText, c.x)) && NoAdjacentInserts(c.y.ops)
    && Text(Text(c.baseText, c.x), c.y) == c.view
  }

  // ----- the transitions --------------------------------------------------------------------------------

  /** First connection: the server's head is the whole state. */
  function Connect(headText: string, headRev: int): Client {
    Client(Whole(headText), Identity(|headText|), Identity(|headText|), headRev, headText, headText, false, 0)
  }

  /** The user edits the text on the screen. */
  function TypeText(c: Client, text: string): Client {
    c.(view := text)
  }

  /** What `submitTick` would submit. */
  function Unsent(c: Client): Changeset
    requires ClientOk(c)
  {
    Diff(if IsNoChange(c.x) then c.baseText else Text(c.baseText, c.x), c.view)
  }

  predicate Submits(c: Client)
    requires ClientOk(c)
  {
    !c.waiting && !IsNoChange(Unsent(c))
  }

  function SubmitTick(c: Client): Client
    requires ClientOk(c)
  {
    if Submits(c) then c.(x := Unsent(c), y := Identity(|c.view|), waiting := true, nextId := c.nextId + 1) else c
  }

  function SubmitOf(c: Client): Submit {
    Submit(c.nextId, c.serverRev, c.x)
  }

  function HandleAck(c: Client, newRev: int): Client
    requires ClientOk(c)
  {
    ApplyLength("", c.a.ops);
    ComposedMeaning("", c.a, c.x);
    var a := Composed(c.a, c.x);
    ComposedNat(a);
    c.(a := a, x := Identity(a.newLen), serverRev := newRev, waiting := false, baseText := Text("", a))
  }

  lemma ComposedNat(c: Changeset)
    requires Valid(c)
    ensures c.newLen >= 0
  {
    ProducedNat(c.ops);
  }

  /** The local edit, consolidated before a broadcast is taken in. */
  function LocalEdit(c: Client): Changeset
    requires ClientOk(c)
  {
    Diff(Text(c.baseText, c.x), c.view)
  }

  /** The change a broadcast makes on the screen: f(Y, f(X, B)). */
  function ScreenChange(c: Client, b: Changeset): Changeset
    requires ClientOk(c) && ValidOn(b, c.baseText)
  {
    DiffMeaning(Text(c.baseText, c.x), c.view);
    FollowedOpsOk(c.x, b);
    Followed(LocalEdit(c), Followed(c.x, b))
  }

  function HandleBroadcast(c: Client, b: Changeset, newRev: int): Client
    requires ClientOk(c) && ValidOn(b, c.baseText)
  {
    BroadcastOk(c, b);
    var a := Composed(c.a, b);
    c.(a := a, x := Followed(b, c.x), y := Followed(Followed(c.x, b), LocalEdit(c)),
       serverRev := newRev, baseText := Text("", a), view := Text(c.view, ScreenChange(c, b)))
  }

  // ----- what they keep ------------------------------------------------------------------------------------

  lemma BroadcastOk(c: Client, b: Changeset)
    requires ClientOk(c) && ValidOn(b, c.baseText)
    ensures ValidOn(Composed(c.a, b), "") && Text("", Composed(c.a, b)) == Text(c.baseText, b)
    ensures OpsOk(Followed(c.x, b).ops) && OpsOk(LocalEdit(c).ops)
    ensures ValidOn(ScreenChange(c, b), c.view)
  {
    ApplyLength("", c.a.ops);
    ComposedMeaning("", c.a, b);
    FollowedMeaning(c.baseText, c.x, b);
    var ax := Text(c.baseText, c.x);
    DiffMeaning(ax, c.view);
    FollowedMeaning(ax, LocalEdit(c), Followed(c.x, b));
  }

  lemma ConnectOk(headText: string, headRev: int)
    ensures ClientOk(Connect(headText, headRev)) && ViewOk(Connect(headText, headRev))
    ensures Connect(headText, headRev).view == Connect(headText, headRev).baseText == headText
  {
    IdentityKeeps(headText, Identity(|headText|));
    if headText != [] {
      Single(Insert(headText));
      ApplyCons("", Insert(headText), []);
      assert [Insert(headText)] + [] == [Insert(headText)];
      assert Apply("", []) == "";
    }
  }

  lemma UnsentMeaning(c: Client)
    requires ClientOk(c) && !c.waiting
    ensures Unsent(c) == Diff(c.baseText, c.view)
    ensures ValidOn(Unsent(c), c.baseText) && NoAdjacentInserts(Unsent(c).ops)
    ensures Text(c.baseText, Unsent(c)) == c.view
    ensures IsNoChange(Unsent(c)) <==> c.baseText == c.view
  {
    IdentityKeeps(c.baseText, c.x);
    DiffMeaning(c.baseText, c.view);
    DiffIdentity(c.baseText, c.view);
    IdentityTestsAgree(Unsent(c));
  }

  /** A tick leaves the screen and what is known of the server as they are.  It submits exactly if nothing
      is outstanding and the screen differs from the server's text, and what it submits takes that text to
      the screen. */
  lemma SubmitTickOk(c: Client)
    requires ClientOk(c)
    ensures ClientOk(SubmitTick(c))
    ensures SubmitTick(c).view == c.view && SubmitTick(c).baseText == c.baseText && SubmitTick(c).serverRev == c.serverRev
    ensures Submits(c) <==> !c.waiting && c.baseText != c.view
    ensures Submits(c) ==>
              && ViewOk(SubmitTick(c)) && SubmitTick(c).waiting && SubmitTick(c).nextId == c.nextId + 1
              && ValidOn(SubmitTick(c).x, c.baseText) && NoAdjacentInserts(SubmitTick(c).x.ops)
              && Text(c.baseText, SubmitTick(c).x) == c.view
    ensures !Submits(c) ==> SubmitTick(c) == c
  {
    if !c.waiting {
      UnsentMeaning(c);
      IdentityKeeps(c.view, c.x);
    }
  }

  /** An acknowledgement makes X part of the server's text and changes nothing on the screen. */
  lemma HandleAckOk(c: Client, newRev: int)
    requires ClientOk(c)
    ensures ClientOk(HandleAck(c, newRev))
    ensures HandleAck(c, newRev).baseText == Text(c.baseText, c.x) && HandleAck(c, newRev).view == c.view
    ensures !HandleAck(c, newRev).waiting && HandleAck(c, newRev).serverRev == newRev
    ensures ViewOk(c) ==> ViewOk(HandleAck(c, newRev))
  {
    ApplyLength("", c.a.ops);
    ComposedMeaning("", c.a, c.x);
    var c' := HandleAck(c, newRev);
    ApplyLength("", c'.a.ops);
    IdentityKeeps(c'.baseText, c'.x);
  }

  /** Section 11.4 of the manual, for any local edit Y: A'X'Y' is VD. */
  lemma BroadcastKeepsView(base: string, x: Changeset, y: Changeset, b: Changeset)
    requires ValidOn(x, base) && ValidOn(b, base) && ValidOn(y, Text(base, x))
    requires NoAdjacentInserts(x.ops) && NoAdjacentInserts(b.ops) && NoAdjacentInserts(y.ops)
    ensures ValidOn(Followed(b, x), Text(base, b)) && ValidOn(Followed(x, b), Text(base, x))
    ensures var xb, v := Followed(x, b), Text(Text(base, x), y);
            var ax := Text(Text(base, b), Followed(b, x));
            && ValidOn(Followed(xb, y), ax) && ValidOn(Followed(y, xb), v)
            && NoAdjacentInserts(Followed(xb, y).ops)
            && Text(ax, Followed(xb, y)) == Text(v, Followed(y, xb))
  {
    Converges(base, x, b);
    FollowedOk(x, b);
    Converges(Text(base, x), y, Followed(x, b));
    FollowedOk(Followed(x, b), y);
  }

  /** Taking in a broadcast: the server's text moves on by B, X is rebased over B, the screen gets the
      change D, and A, X and Y again make up what is on the screen. */
  lemma HandleBroadcastOk(c: Client, b: Changeset, newRev: int)
    requires ClientOk(c) && ValidOn(b, c.baseText) && NoAdjacentInserts(b.ops)
    ensures ClientOk(HandleBroadcast(c, b, newRev)) && ViewOk(HandleBroadcast(c, b, newRev))
    ensures HandleBroadcast(c, b, newRev).baseText == Text(c.baseText, b)
  {
    BroadcastOk(c, b);
    DiffMeaning(Text(c.baseText, c.x), c.view);
    BroadcastKeepsView(c.baseText, c.x, LocalEdit(c), b);
    FollowedOk(b, c.x);
    if !c.waiting {
      ApplyLength(c.baseText, b.ops);
      FollowIdentity(b);
    }
  }

  /** What the user has typed and not submitted: from the text A and X make to the screen, keeping as much
      as any changeset between the two. */
  lemma LocalEditOk(c: Client, l: Changeset)
    requires ClientOk(c)
    ensures var ax, edit := Text(c.baseText, c.x), LocalEdit(c);
            && ValidOn(edit, ax) && NoAdjacentInserts(edit.ops) && Text(ax, edit) == c.view
            && (ValidOn(l, ax) && Text(ax, l) == c.view ==> Retained(l.ops) <= Retained(edit.ops))
  {
    var ax := Text(c.baseText, c.x);
    DiffMeaning(ax, c.view);
    if ValidOn(l, ax) && Text(ax, l) == c.view {
      DiffIsOptimal(ax, c.view, l);
    }
  }

  /** A broadcast keeps what the user has typed.  The new screen is the merge of the local edit and the
      broadcast, carried over X, on the text A and X made; and the new Y inserts exactly what the local edit
      inserted and deletes exactly what it deleted and the broadcast left. */
  lemma BroadcastKeepsTyping(c: Client, b: Changeset, newRev: int)
    requires ClientOk(c) && ValidOn(b, c.baseText) && NoAdjacentInserts(b.ops)
    ensures var ax, edit, carried := Text(c.baseText, c.x), LocalEdit(c), Followed(c.x, b);
            var c' := HandleBroadcast(c, b, newRev);
            && ValidOn(edit, ax) && Text(ax, edit) == c.view && NoAdjacentInserts(edit.ops)
            && ValidOn(carried, ax) && Inserted(carried.ops) == Inserted(b.ops)
            && c'.view == Merged(ax, edit.ops, carried.ops)
            && Inserted(c'.y.ops) == Inserted(edit.ops)
            && |KeepMarks(edit.ops)| == Consumed(carried.ops)
            && KeepMarks(c'.y.ops) == Carried(carried.ops, KeepMarks(edit.ops))
            && c'.waiting == c.waiting && c'.nextId == c.nextId && c'.serverRev == newRev
    ensures var c' := HandleBroadcast(c, b, newRev);
            && c'.baseText == Text(c.baseText, b) && ValidOn(c'.x, c'.baseText)
            && Text(c'.baseText, c'.x) == Text(Text(c.baseText, c.x), Followed(c.x, b))
            && Inserted(c'.x.ops) == Inserted(c.x.ops)
            && |KeepMarks(c.x.ops)| == Consumed(b.ops) && KeepMarks(c'.x.ops) == Carried(b.ops, KeepMarks(c.x.ops))
  {
    hide Merged, KeepMarks, Carried;
    var ax := Text(c.baseText, c.x);
    BroadcastOk(c, b);
    LocalEditOk(c, c.x);
    FollowedMeaning(c.baseText, c.x, b);
    FollowedOk(c.x, b);
    FollowedMeaning(ax, LocalEdit(c), Followed(c.x, b));
    FollowedOk(Followed(c.x, b), LocalEdit(c));
    FollowedDeletes(Followed(c.x, b), LocalEdit(c));
    Converges(c.baseText, b, c.x);
    FollowedOk(b, c.x);
    FollowedDeletes(b, c.x);
  }

  // ----- rebasing the identity --------------------------------------------------------------------------------

  predicate OnlyRetains(ops: seq<Op>) {
    forall i | 0 <= i < |ops| :: ops[i].Retain?
  }

  lemma {:induction false} FollowRetains(a: seq<Op>, b: seq<Op>)
    requires OpsOk(a) && OpsOk(b) && OnlyRetains(b)
    ensures OnlyRetains(FollowOps(a, b))
    decreases Size(a) + Size(b)
  {
    SizeNat(a);
    SizeNat(b);
    if First(a, b) {
      FollowRetains(a[1..], b);
    } else if a != [] && b != [] {
      var n := Overlap(a, b);
      DropHead(a, n);
      DropHead(b, n);
      DropRetains(b, n);
      FollowRetains(Drop(a, n), Drop(b, n));
    }
  }

  lemma DropRetains(ops: seq<Op>, n: int)
    requires OpsOk(ops) && OnlyRetains(ops) && ops != [] && 0 < n <= OpLen(ops[0])
    ensures OnlyRetains(Drop(ops, n))
  {
    assert Drop(ops[1..], 0) == ops[1..];
  }

  lemma {:induction false} AddAllRetains(ops: seq<Op>, more: seq<Op>)
    requires OnlyRetains(ops) && OnlyRetains(more)
    ensures OnlyRetains(AddAll(ops, more))
    decreases |more|
  {
    if more != [] {
      AddAllRetains(AddOp(ops, more[0]), more[1..]);
    }
  }

  /** Rebasing "no change" over B is "no change" on B's result. */
  lemma FollowIdentity(b: Changeset)
    requires Valid(b) && b.oldLen >= 0 && b.newLen >= 0
    ensures Followed(b, Identity(b.oldLen)) == Identity(b.newLen)
  {
    var one := Identity(b.oldLen);
    if b.oldLen > 0 {
      Single(Retain(b.oldLen));
    }
    var r := Followed(b, one);
    FollowedOk(b, one);
    FollowRetains(b.ops, one.ops);
    AddAllRetains([], FollowOps(b.ops, one.ops));
    assert |r.ops| > 1 ==> SameKind(r.ops[0], r.ops[1]);
    if r.ops != [] {
      assert r.ops == [r.ops[0]];
      Single(r.ops[0]);
    }
  }

  // ----- the object ---------------------------------------------------------------------------------------------

  /** The text that was made, or the old one if applying failed. */
  function ValueOr(r: Scanned, text: string): string {
    if r.Done? then r.value else text
  }

  class Editor {
    var a: Changeset
    var x: Changeset
    var y: Changeset
    var serverRev: int
    var baseText: string
    var editor: string
    var waitingForAck: bool
    var nextSubmissionId: int

    ghost function State(): Client
      reads this
    {
      Client(a, x, y, serverRev, baseText, editor, waitingForAck, nextSubmissionId)
    }

    ghost predicate Valid()
      reads this
    {
      ClientOk(State())
    }

    /** `handleConnectAck` on a first connection. */
    constructor (headText: string, headRev: int)
      ensures Valid() && State() == Connect(headText, headRev)
    {
      baseText, editor, serverRev := headText, headText, headRev;
      a := Changeset(0, |headText|, if |headText| == 0 then [] else [Insert(headText)]);
      x, y := Identity(|headText|), Identity(|headText|);
      waitingForAck, nextSubmissionId := false, 0;
      new;
      ConnectOk(headText, headRev);
    }

    /** `submitTick`; `overdue` says that the last submission is more than two seconds old.  An unanswered
        X is then submitted again, as it stands, and nothing else changes. */
    method Tick(overdue: bool) returns (sent: Result<Submit>)
      requires Valid()
      modifies this
      ensures Valid() && State() == SubmitTick(old(State()))
      ensures sent == if Submits(old(State())) || (old(waitingForAck) && overdue) then Ok(SubmitOf(State())) else Err
    {
      SubmitTickOk(State());
      if waitingForAck {
        return if overdue then Ok(Submit(nextSubmissionId, serverRev, x)) else Err;
      }
      var afterAX := baseText;
      if !IsNoChange(x) {
        var applied := ApplyChangeset(afterAX, x);
        afterAX := ValueOr(applied, afterAX);
      }
      var edit := DiffToChangeset(afterAX, editor);
      if IsNoChange(edit) {
        return Err;
      }
      x, y, waitingForAck := edit, Identity(|editor|), true;
      nextSubmissionId := nextSubmissionId + 1;
      sent := Ok(Submit(nextSubmissionId, serverRev, x));
    }

    /** `handleAck`. */
    method Ack(newRev: int)
      requires Valid()
      modifies this
      ensures Valid() && State() == HandleAck(old(State()), newRev)
    {
      HandleAckOk(State(), newRev);
      ComposedOk(State());
      a := Compose(a, x);
      x := Identity(a.newLen);
      serverRev, waitingForAck := newRev, false;
      var text := ApplyChangeset("", a);
      baseText := text.value;
    }

    /** `handleBroadcast`. */
    method Broadcast(b: Changeset, newRev: int)
      requires Valid() && ValidOn(b, baseText) && NoAdjacentInserts(b.ops)
      modifies this
      ensures Valid() && ViewOk(State()) && State() == HandleBroadcast(old(State()), b, newRev)
    {
      hide Consumed, Produced, NoAdjacentInserts, Diff, Followed, Composed, Apply, OpsOk;
      ghost var before := State();
      HandleBroadcastOk(before, b, newRev);
      BroadcastOk(before, b);
      var afterAX := ApplyChangeset(baseText, x);
      y := DiffToChangeset(afterAX.value, editor);
      var xFollowB := Follow(x, b);
      var bFollowX := Follow(b, x);
      var aPrime := Compose(a, b);
      var yPrime := Follow(xFollowB, y);
      var d := Follow(y, xFollowB);
      var newText := ApplyChangeset(editor, d);
      editor := newText.value;
      a, x, y, serverRev := aPrime, bFollowX, yPrime, newRev;
      var base := ApplyChangeset("", a);
      baseText := base.value;
    }
  }

  lemma ComposedOk(c: Client)
    requires ClientOk(c)
    ensures ValidOn(Composed(c.a, c.x), "") && Composed(c.a, c.x).newLen >= 0
  {
    ApplyLength("", c.a.ops);
    ComposedMeaning("", c.a, c.x);
    ComposedNat(Composed(c.a, c.x));
  }
}
