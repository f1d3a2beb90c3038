/** Where two changesets insert at one place, and in which order their texts then stand. */
module FollowOrder {
  import opened Changesets
  import opened Following

  // ----- the order ---------------------------------------------------------------------------------------

  /** `s` is not after `t` in the order of dictionaries: a prefix, or smaller where the two first differ. */
  predicate Lexicographic(s: string, t: string) {
    s <= t || exists k :: 0 <= k < |s| && k < |t| && s[..k] == t[..k] && s[k] < t[k]
  }

  /** The tie-break compares in the lexicographic order. */
  lemma {:induction false} LeqIsLexicographic(s: string, t: string)
    ensures Leq(s, t) <==> Lexicographic(s, t)
  {
    if s != [] && t != [] && s[0] == t[0] {
      LeqIsLexicographic(s[1..], t[1..]);
      SameHead(s, t);
    } else if s != [] && t != [] {
      DifferentHead(s, t);
    }
  }

  lemma DifferentHead(s: string, t: string)
    requires s != [] && t != [] && s[0] != t[0]
    ensures Lexicographic(s, t) <==> s[0] < t[0]
  {
    forall k | 0 < k <= |s| && k <= |t| ensures s[..k] != t[..k] {
      assert s[..k][0] == s[0] && t[..k][0] == t[0];
    }
    assert s[..0] == t[..0];
  }

  lemma SameHead(s: string, t: string)
    requires s != [] && t != [] && s[0] == t[0]
    ensures Lexicographic(s, t) <==> Lexicographic(s[1..], t[1..])
  {
    assert s == [s[0]] + s[1..] && t == [t[0]] + t[1..];
    if Lexicographic(s, t) && !(s <= t) {
      var k :| 0 <= k < |s| && k < |t| && s[..k] == t[..k] && s[k] < t[k];
      assert s[1..][..k - 1] == s[..k][1..] && t[1..][..k - 1] == t[..k][1..];
      assert s[1..][k - 1] == s[k] && t[1..][k - 1] == t[k];
    }
    if Lexicographic(s[1..], t[1..]) && !(s[1..] <= t[1..]) {
      var k :| 0 <= k < |s[1..]| && k < |t[1..]| && s[1..][..k] == t[1..][..k] && s[1..][k] < t[1..][k];
      assert s[..k + 1] == [s[0]] + s[1..][..k] && t[..k + 1] == [t[0]] + t[1..][..k];
      assert s[k + 1] < t[k + 1];
    }
  }

  // ----- splitting the merge -----------------------------------------------------------------------------

  predicate EndsInserting(ops: seq<Op>) {
    ops != [] && ops[|ops| - 1].Insert?
  }

  /** Operations that read nothing only insert. */
  lemma {:induction false} ReadsNothing(ops: seq<Op>)
    requires OpsOk(ops) && Consumed(ops) == 0 && !EndsInserting(ops)
    ensures ops == []
  {
    if ops != [] {
      OkReadable(ops[1..]);
      if |ops| > 1 {
        ReadsNothing(ops[1..]);
      }
    }
  }

  /** The first `n` characters of a longer list are those of its front. */
  lemma DropFront(ops: seq<Op>, more: seq<Op>, n: int)
    requires OpsOk(ops) && OpsOk(more) && ops != [] && !ops[0].Insert? && 0 < n <= OpLen(ops[0]) && !EndsInserting(ops)
    ensures OpsOk(ops + more) && OpsOk(Drop(ops, n)) && Drop(ops + more, n) == Drop(ops, n) + more
    ensures Consumed(Drop(ops, n)) == Consumed(ops) - n && Size(Drop(ops, n)) == Size(ops) - n
    ensures !EndsInserting(Drop(ops, n))
  {
    hide Drop, Consumed, Size;
    DropHead(ops, n);
    assert (ops + more)[0] == ops[0] && (ops + more)[1..] == ops[1..] + more;
    if n < OpLen(ops[0]) {
      DropPart(ops, n);
      DropPart(ops + more, n);
    } else {
      DropWhole(ops);
      DropWhole(ops + more);
    }
  }

  lemma MergedHeads(text: string, a: seq<Op>, b: seq<Op>)
    requires OpsOk(a) && OpsOk(b) && Consumed(a) == Consumed(b) == |text|
    requires a != [] && b != [] && !Inserting(a) && !Inserting(b)
    ensures var n := Overlap(a, b);
            && 0 < n <= OpLen(a[0]) && n <= OpLen(b[0]) && n <= |text|
            && OpsOk(Drop(a, n)) && OpsOk(Drop(b, n)) && Consumed(Drop(a, n)) == Consumed(Drop(b, n)) == |text[n..]|
            && Merged(text, a, b)
               == (if a[0].Retain? && b[0].Retain? then text[..n] else []) + Merged(text[n..], Drop(a, n), Drop(b, n))
  {
    hide Drop;
    var n := Overlap(a, b);
    DropHead(a, n);
    DropHead(b, n);
    OkReadable(Drop(a, n));
  }

  /** Lists that work on the front of the text and then on the rest are merged front with front and rest with
      rest, as long as no place is split. */
  lemma {:induction false} MergedSplit(text: string, a: seq<Op>, more: seq<Op>, b: seq<Op>, rest: seq<Op>)
    requires OpsOk(a) && OpsOk(more) && OpsOk(b) && OpsOk(rest) && !EndsInserting(a) && !EndsInserting(b)
    requires 0 <= Consumed(a) == Consumed(b) && Consumed(more) == Consumed(rest) == |text| - Consumed(a) >= 0
    ensures OpsOk(a + more) && OpsOk(b + rest) && Consumed(a + more) == Consumed(b + rest) == |text|
    ensures Merged(text, a + more, b + rest)
         == Merged(text[..Consumed(a)], a, b) + Merged(text[Consumed(a)..], more, rest)
    decreases Size(a) + Size(b)
  {
    hide Merged, Drop, Leq, Consumed, Size, OpsOk;
    AppendedOk(a, more);
    AppendedOk(b, rest);
    var k := Consumed(a);
    var front, back := text[..k], text[k..];
    if a == [] || b == [] {
      NothingSplit(text, a, more, b, rest);
    } else if First(a, b) {
      TailSplit(a, more);
      MergedStep(text, a + more, b + rest);
      MergedStep(front, a, b);
      MergedSplit(text, a[1..], more, b, rest);
    } else if Inserting(b) {
      TailSplit(b, rest);
      MergedStep(text, a + more, b + rest);
      MergedStep(front, a, b);
      MergedSplit(text, a, more, b[1..], rest);
    } else {
      var n := Overlap(a, b);
      MergedHeads(text, a + more, b + rest);
      MergedHeads(front, a, b);
      DropFront(a, more, n);
      DropFront(b, rest, n);
      SizeNat(Drop(a, n));
      SizeNat(Drop(b, n));
      OkReadable(Drop(a, n));
      MergedSplit(text[n..], Drop(a, n), more, Drop(b, n), rest);
      SliceSplit(text, n, k);
    }
  }

  lemma AppendedOk(a: seq<Op>, more: seq<Op>)
    requires OpsOk(a) && OpsOk(more)
    ensures OpsOk(a + more) && Consumed(a + more) == Consumed(a) + Consumed(more) && Size(a) >= 0 && Consumed(a) >= 0
    ensures a != [] ==> (a + more)[0] == a[0] && OpOk(a[0])
  {
    hide Consumed, Size;
    ConsumedConcat(a, more);
    SizeNat(a);
    OkReadable(a);
  }

  lemma NothingSplit(text: string, a: seq<Op>, more: seq<Op>, b: seq<Op>, rest: seq<Op>)
    requires OpsOk(a) && OpsOk(more) && OpsOk(b) && OpsOk(rest) && !EndsInserting(a) && !EndsInserting(b)
    requires 0 <= Consumed(a) == Consumed(b) && Consumed(more) == Consumed(rest) == |text| - Consumed(a)
    requires a == [] || b == []
    ensures a == [] && b == [] && a + more == more && b + rest == rest && Consumed(a) == 0
    ensures Merged(text, more, rest) == Merged(text[..0], a, b) + Merged(text[0..], more, rest)
  {
    ReadsNothing(a);
    ReadsNothing(b);
    assert text[0..] == text && text[..0] == [];
  }

  /** Behind a leading insert the front goes on. */
  lemma TailSplit(a: seq<Op>, more: seq<Op>)
    requires OpsOk(a) && OpsOk(more) && Inserting(a) && !EndsInserting(a)
    ensures (a + more)[1..] == a[1..] + more && OpsOk(a[1..]) && !EndsInserting(a[1..])
    ensures Consumed(a[1..]) == Consumed(a) && 0 <= Size(a[1..]) < Size(a)
  {
    SizeNat(a[1..]);
  }

  lemma SliceSplit(text: string, n: int, k: int)
    requires 0 <= n <= k <= |text|
    ensures text[..k][..n] == text[..n] && text[..k][n..] == text[n..][..k - n] && text[n..][k - n..] == text[k..]
  {
  }

  // ----- who comes first -----------------------------------------------------------------------------------

  /** Two inserts at one place. */
  lemma MergedInserts(text: string, s: string, a: seq<Op>, t: string, b: seq<Op>)
    requires s != [] && t != [] && OpsOk(a) && OpsOk(b) && !Inserting(a) && !Inserting(b)
    requires Consumed(a) == Consumed(b) == |text|
    ensures OpsOk([Insert(s)] + a) && OpsOk([Insert(t)] + b)
    ensures Consumed([Insert(s)] + a) == Consumed([Insert(t)] + b) == |text|
    ensures Merged(text, [Insert(s)] + a, [Insert(t)] + b)
         == (if Lexicographic(s, t) then s + t else t + s) + Merged(text, a, b)
  {
    hide Merged, Leq, Lexicographic, Consumed, OpsOk;
    var x, y := [Insert(s)] + a, [Insert(t)] + b;
    assert x[1..] == a && y[1..] == b;
    OneMore(s, a);
    OneMore(t, b);
    LeqIsLexicographic(s, t);
    MergedStep(text, x, y);
    if Leq(s, t) {
      MergedStep(text, a, y);
    } else {
      MergedStep(text, x, b);
    }
  }

  lemma OneMore(s: string, a: seq<Op>)
    requires OpsOk(a) && s != []
    ensures OpsOk([Insert(s)] + a) && Consumed([Insert(s)] + a) == Consumed(a)
  {
    ConsumedConcat([Insert(s)], a);
    Single(Insert(s));
  }

  /** Two lists for the front of the text, and two for what follows. */
  predicate Halves(text: string, a1: seq<Op>, a2: seq<Op>, b1: seq<Op>, b2: seq<Op>) {
    && OpsOk(a1) && OpsOk(a2) && OpsOk(b1) && OpsOk(b2)
    && 0 <= Consumed(a1) == Consumed(b1) <= |text| && Consumed(a2) == Consumed(b2) == |text| - Consumed(a1)
  }

  /** The merge of both halves, with the inserts `s` and `t` between them in lexicographic order. */
  function InOrder(text: string, a1: seq<Op>, s: string, a2: seq<Op>, b1: seq<Op>, t: string, b2: seq<Op>): string
    requires Halves(text, a1, a2, b1, b2)
  {
    var k := Consumed(a1);
    Merged(text[..k], a1, b1) + (if Lexicographic(s, t) then s + t else t + s) + Merged(text[k..], a2, b2)
  }

  /** Of two inserts at one place, the lexicographically smaller stands first in the result, whichever of
      the changesets it comes from; what precedes the place and what follows it are merged for themselves. */
  lemma SmallerFirst(text: string, a: Changeset, b: Changeset,
                     a1: seq<Op>, s: string, a2: seq<Op>, b1: seq<Op>, t: string, b2: seq<Op>)
    requires ValidOn(a, text) && a.ops == a1 + ([Insert(s)] + a2) && !EndsInserting(a1) && !Inserting(a2)
    requires ValidOn(b, text) && b.ops == b1 + ([Insert(t)] + b2) && !EndsInserting(b1) && !Inserting(b2)
    requires Consumed(a1) == Consumed(b1)
    ensures Halves(text, a1, a2, b1, b2) && ValidOn(Followed(a, b), Text(text, a))
    ensures Text(Text(text, a), Followed(a, b)) == InOrder(text, a1, s, a2, b1, t, b2)
  {
    hide Merged, InOrder, Consumed, Followed, OpsOk, EndsInserting, Inserting, ValidOn, Text;
    Unpack(text, a);
    Unpack(text, b);
    PartsOk(a.ops, a1, s, a2);
    PartsOk(b.ops, b1, t, b2);
    MergedAtPlace(text, a1, s, a2, b1, t, b2);
    FollowedMeaning(text, a, b);
  }

  lemma Unpack(text: string, c: Changeset)
    requires ValidOn(c, text)
    ensures OpsOk(c.ops) && Consumed(c.ops) == |text|
  {
  }

  lemma MergedAtPlace(text: string, a1: seq<Op>, s: string, a2: seq<Op>, b1: seq<Op>, t: string, b2: seq<Op>)
    requires Halves(text, a1, a2, b1, b2) && s != [] && t != []
    requires !EndsInserting(a1) && !Inserting(a2) && !EndsInserting(b1) && !Inserting(b2)
    ensures var a, b := a1 + ([Insert(s)] + a2), b1 + ([Insert(t)] + b2);
            && OpsOk(a) && OpsOk(b) && Consumed(a) == Consumed(b) == |text|
            && Merged(text, a, b) == InOrder(text, a1, s, a2, b1, t, b2)
  {
    hide Merged, Lexicographic, Consumed, OpsOk, EndsInserting, Inserting;
    var k := Consumed(a1);
    MergedInserts(text[k..], s, a2, t, b2);
    MergedSplit(text, a1, [Insert(s)] + a2, b1, [Insert(t)] + b2);
  }

  lemma PartsOk(ops: seq<Op>, front: seq<Op>, s: string, back: seq<Op>)
    requires OpsOk(ops) && ops == front + ([Insert(s)] + back)
    ensures OpsOk(front) && OpsOk(back) && s != [] && OpsOk([Insert(s)] + back)
    ensures Consumed(front) >= 0 && Consumed(back) >= 0 && Consumed(ops) == Consumed(front) + Consumed(back)
    ensures Consumed([Insert(s)] + back) == Consumed(back)
  {
    hide Consumed, OpsOk;
    var tail := [Insert(s)] + back;
    assert ops == front + tail;
    HalvesOk(front, tail);
    TailOk(tail);
    assert tail[1..] == back;
    ConsumedConcat(front, tail);
    ConsumedConcat([Insert(s)], back);
    Single(Insert(s));
    OkReadable(front);
    OkReadable(back);
  }

  lemma HalvesOk(front: seq<Op>, back: seq<Op>)
    requires OpsOk(front + back)
    ensures OpsOk(front) && OpsOk(back)
  {
    var ops := front + back;
    forall i | 0 <= i < |front| ensures OpOk(front[i]) {
      assert front[i] == ops[i];
    }
    forall i | 0 <= i < |back| ensures OpOk(back[i]) {
      assert back[i] == ops[|front| + i];
    }
  }

  /** The two orders, in one example: "ab" stands before "b", though it is longer. */
  lemma LongerMayComeFirst()
    ensures Lexicographic("ab", "b") && !Lexicographic("b", "ab")
  {
    assert "ab"[..0] == "b"[..0] && "ab"[0] < "b"[0];
  }

  /** Nothing is rebased over no change: what is applied is B itself. */
  lemma FollowOfNothing(text: string, b: Changeset)
    requires ValidOn(b, text)
    ensures ValidOn(Identity(|text|), text) && Text(text, Identity(|text|)) == text
    ensures ValidOn(Followed(Identity(|text|), b), text)
    ensures Text(text, Followed(Identity(|text|), b)) == Text(text, b)
  {
    IdentityKeeps(text, b);
    FollowedMeaning(text, Identity(|text|), b);
    MergedWithNothing(text, Identity(|text|).ops, b.ops);
  }

  /** Merging with operations that only retain. */
  lemma {:induction false} MergedWithNothing(text: string, a: seq<Op>, b: seq<Op>)
    requires OpsOk(a) && OpsOk(b) && Consumed(a) == Consumed(b) == |text| && |a| <= 1 && (a != [] ==> a[0].Retain?)
    ensures Merged(text, a, b) == Apply(text, b)
    decreases Size(a) + Size(b)
  {
    hide Merged, Drop, Apply;
    if Inserting(b) {
      SizeNat(b[1..]);
      MergedStep(text, a, b);
      MergedWithNothing(text, a, b[1..]);
      assert b == [b[0]] + b[1..] && text[0..] == text;
      OkReadable(b[1..]);
      ApplyCons(text, b[0], b[1..]);
    } else if a != [] && b != [] {
      var n := Overlap(a, b);
      MergedHeads(text, a, b);
      DropHead(a, n);
      DropHead(b, n);
      SizeNat(Drop(a, n));
      SizeNat(Drop(b, n));
      StillRetains(a, n);
      DropApply(text, b, n);
      MergedWithNothing(text[n..], Drop(a, n), Drop(b, n));
    } else {
      BothEmpty(text, a, b);
    }
  }

  lemma StillRetains(a: seq<Op>, n: int)
    requires OpsOk(a) && |a| == 1 && a[0].Retain? && 0 < n <= OpLen(a[0])
    ensures |Drop(a, n)| <= 1 && (Drop(a, n) != [] ==> Drop(a, n)[0].Retain?)
  {
    if n < OpLen(a[0]) {
      DropPart(a, n);
    } else {
      DropWhole(a);
    }
  }

  lemma BothEmpty(text: string, a: seq<Op>, b: seq<Op>)
    requires OpsOk(a) && OpsOk(b) && Consumed(a) == Consumed(b) == |text| && !Inserting(a) && !Inserting(b)
    requires a == [] || b == []
    ensures a == [] && b == [] && Merged(text, a, b) == Apply(text, b)
  {
    NothingLeft(a, b);
  }
}
