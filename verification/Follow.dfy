/** Rebasing: `Follow(A, B)` is B, rewritten to apply after A.

    `FollowOps` is the walk over the two lists of operations, `Followed` its merged result as a
    changeset, and the method `Follow` the two-cursor loop of the source.  The convergence law of
    section 8 of the EasySync manual is proved in both directions: it holds exactly when the inserts
    the two changesets make at the same place read the same in either order of precedence. */
module Following {
  import opened Changesets

  // ----- walking a list of operations ------------------------------------------------------------------

  function OpLen(op: Op): int {
    if op.Insert? then |op.chars| else OpConsumed(op)
  }

  /** The total length left to walk. */
  function Size(ops: seq<Op>): int {
    if ops == [] then 0 else OpLen(ops[0]) + Size(ops[1..])
  }

  /** What is left of an operation after its first `n` characters. */
  function Shorten(op: Op, n: int): Op
    requires 0 <= n <= OpLen(op)
  {
    match op
    case Retain(m) => Retain(m - n)
    case Insert(s) => Insert(s[n..])
    case Delete(m) => Delete(m - n)
    case Unknown(_) => op
  }

  /** `consume`: the list after its first `n` characters. */
  function Drop(ops: seq<Op>, n: int): seq<Op>
    requires OpsOk(ops)
    decreases |ops|
  {
    if n <= 0 || ops == [] then ops
    else if n >= OpLen(ops[0]) then Drop(ops[1..], n - OpLen(ops[0]))
    else [Shorten(ops[0], n)] + ops[1..]
  }

  lemma {:induction false} SizeNat(ops: seq<Op>)
    requires OpsOk(ops)
    ensures Size(ops) >= 0 && (ops != [] ==> Size(ops) > 0)
  {
    if ops != [] {
      SizeNat(ops[1..]);
    }
  }

  lemma DropHead(ops: seq<Op>, n: int)
    requires OpsOk(ops) && ops != [] && 0 < n <= OpLen(ops[0])
    ensures OpsOk(Drop(ops, n)) && Size(Drop(ops, n)) == Size(ops) - n
    ensures Consumed(Drop(ops, n)) == Consumed(ops) - (if ops[0].Insert? then 0 else n)
    ensures Produced(Drop(ops, n)) == Produced(ops) - (if ops[0].Delete? then 0 else n)
  {
    assert n == OpLen(ops[0]) ==> Drop(ops, n) == Drop(ops[1..], 0) == ops[1..];
    if n < OpLen(ops[0]) {
      var rest := [Shorten(ops[0], n)] + ops[1..];
      assert rest[0] == Shorten(ops[0], n) && rest[1..] == ops[1..];
    }
  }

  lemma DropWhole(ops: seq<Op>)
    requires OpsOk(ops) && ops != []
    ensures Drop(ops, OpLen(ops[0])) == ops[1..]
  {
    assert Drop(ops[1..], 0) == ops[1..];
  }

  lemma DropPart(ops: seq<Op>, n: int)
    requires OpsOk(ops) && ops != [] && 0 < n < OpLen(ops[0])
    ensures Drop(ops, n) == [Shorten(ops[0], n)] + ops[1..]
  {
  }

  /** The first `n` characters of a longer operation, and the rest of it. */
  lemma ShortenApply(text: string, op: Op, rest: seq<Op>, n: int)
    requires OpOk(op) && !op.Insert? && 0 < n < OpLen(op) && Readable(rest) && OpLen(op) + Consumed(rest) == |text|
    ensures n <= |text| && Readable([op] + rest) && Readable([Shorten(op, n)] + rest)
    ensures Consumed([op] + rest) == |text| && Consumed([Shorten(op, n)] + rest) == |text[n..]|
    ensures Apply(text, [op] + rest)
         == (if op.Retain? then text[..n] else []) + Apply(text[n..], [Shorten(op, n)] + rest)
  {
    hide Apply, Consumed, Readable, Head;
    ConsumedNat(rest);
    ApplyCons(text, op, rest);
    ApplyCons(text[n..], Shorten(op, n), rest);
    HeadSplit(text, op, n);
  }

  lemma HeadSplit(text: string, op: Op, n: int)
    requires OpOk(op) && !op.Insert? && 0 < n < OpLen(op) <= |text|
    ensures text[n..][OpLen(op) - n..] == text[OpLen(op)..]
    ensures Head(text, op) == (if op.Retain? then text[..n] else []) + Head(text[n..], Shorten(op, n))
  {
  }

  lemma DropApply(text: string, ops: seq<Op>, n: int)
    requires OpsOk(ops) && ops != [] && !ops[0].Insert? && 0 < n <= OpLen(ops[0]) && Consumed(ops) == |text|
    ensures n <= |text| && OpsOk(Drop(ops, n)) && Consumed(Drop(ops, n)) == |text[n..]|
    ensures Apply(text, ops) == (if ops[0].Retain? then text[..n] else []) + Apply(text[n..], Drop(ops, n))
  {
    hide Apply, Drop, Readable;
    var op, rest := ops[0], ops[1..];
    DropHead(ops, n);
    OkReadable(rest);
    assert ops == [op] + rest;
    if n < OpLen(op) {
      DropPart(ops, n);
      ShortenApply(text, op, rest, n);
    } else {
      DropWhole(ops);
      ApplyCons(text, op, rest);
    }
  }

  // ----- the order on inserted strings ----------------------------------------------------------------

  /** Lexicographic order. */
  predicate Leq(s: string, t: string) {
    s == [] || (t != [] && (s[0] < t[0] || (s[0] == t[0] && Leq(s[1..], t[1..]))))
  }

  lemma {:induction false} LeqOrder(s: string, t: string)
    ensures Leq(s, t) || Leq(t, s)
    ensures Leq(s, t) && Leq(t, s) ==> s == t
  {
    if s != [] && t != [] {
      LeqOrder(s[1..], t[1..]);
      assert s == [s[0]] + s[1..] && t == [t[0]] + t[1..];
    }
  }

  // ----- follow -----------------------------------------------------------------------------------------

  predicate Inserting(ops: seq<Op>) {
    ops != [] && ops[0].Insert?
  }

  /** The first list inserts next: only it can, or its text is not the greater one. */
  predicate First(a: seq<Op>, b: seq<Op>) {
    Inserting(a) && (Inserting(b) ==> Leq(a[0].chars, b[0].chars))
  }

  function Overlap(a: seq<Op>, b: seq<Op>): int
    requires a != [] && b != []
  {
    if OpLen(b[0]) < OpLen(a[0]) then OpLen(b[0]) else OpLen(a[0])
  }

  /** What both lists do with their next `n` source characters becomes of `b` after `a`. */
  function Emit(a: Op, b: Op, n: int): seq<Op> {
    if a.Retain? && b.Retain? then [Retain(n)]
    else if a.Retain? && b.Delete? then [Delete(n)]
    else []
  }

  function FollowOps(a: seq<Op>, b: seq<Op>): seq<Op>
    requires OpsOk(a) && OpsOk(b)
    decreases Size(a) + Size(b)
  {
    SizeNat(a);
    SizeNat(b);
    if First(a, b) then
      SizeNat(a[1..]);
      [Retain(|a[0].chars|)] + FollowOps(a[1..], b)
    else if Inserting(b) then
      SizeNat(b[1..]);
      [b[0]] + FollowOps(a, b[1..])
    else if a == [] || b == [] then []
    else
      var n := Overlap(a, b);
      DropHead(a, n);
      DropHead(b, n);
      SizeNat(Drop(a, n));
      SizeNat(Drop(b, n));
      Emit(a[0], b[0], n) + FollowOps(Drop(a, n), Drop(b, n))
  }

  function Followed(a: Changeset, b: Changeset): Changeset
    requires OpsOk(a.ops) && OpsOk(b.ops)
  {
    var ops := AddAll([], FollowOps(a.ops, b.ops));
    Changeset(a.newLen, Produced(ops), ops)
  }

  /** The merge of two changesets of one text, with ties resolved in favour of the first. */
  function Merged(text: string, a: seq<Op>, b: seq<Op>): string
    requires OpsOk(a) && OpsOk(b) && Consumed(a) == Consumed(b) == |text|
    decreases Size(a) + Size(b)
  {
    SizeNat(a);
    SizeNat(b);
    if First(a, b) then
      SizeNat(a[1..]);
      a[0].chars + Merged(text, a[1..], b)
    else if Inserting(b) then
      SizeNat(b[1..]);
      b[0].chars + Merged(text, a, b[1..])
    else if a == [] || b == [] then []
    else
      var n := Overlap(a, b);
      DropHead(a, n);
      DropHead(b, n);
      SizeNat(Drop(a, n));
      SizeNat(Drop(b, n));
      OkReadable(Drop(a, n));
      (if a[0].Retain? && b[0].Retain? then text[..n] else []) + Merged(text[n..], Drop(a, n), Drop(b, n))
  }

  lemma {:induction false} FollowOk(a: seq<Op>, b: seq<Op>)
    requires OpsOk(a) && OpsOk(b)
    ensures OpsOk(FollowOps(a, b))
    ensures Consumed(a) == Consumed(b) ==> Consumed(FollowOps(a, b)) == Produced(a)
    ensures Consumed(a) == Consumed(b) ==> Inserted(FollowOps(a, b)) == Inserted(b)
    decreases Size(a) + Size(b)
  {
    SizeNat(a);
    SizeNat(b);
    if First(a, b) {
      SizeNat(a[1..]);
      FollowOk(a[1..], b);
    } else if Inserting(b) {
      SizeNat(b[1..]);
      FollowOk(a, b[1..]);
    } else if a != [] && b != [] {
      var n := Overlap(a, b);
      DropHead(a, n);
      DropHead(b, n);
      DropInserted(b, n);
      FollowOk(Drop(a, n), Drop(b, n));
      var out, rest := Emit(a[0], b[0], n), FollowOps(Drop(a, n), Drop(b, n));
      ConsumedConcat(out, rest);
      InsertedConcat(out, rest);
      if out != [] {
        Single(out[0]);
      }
    } else if Consumed(a) == Consumed(b) {
      NothingLeft(a, b);
    }
  }

  lemma NothingLeft(a: seq<Op>, b: seq<Op>)
    requires OpsOk(a) && OpsOk(b) && Consumed(a) == Consumed(b) && !Inserting(a) && !Inserting(b)
    ensures a == [] <==> b == []
  {
    if a != [] {
      OkReadable(a[1..]);
    }
    if b != [] {
      OkReadable(b[1..]);
    }
  }

  lemma DropInserted(ops: seq<Op>, n: int)
    requires OpsOk(ops) && ops != [] && !ops[0].Insert? && 0 < n <= OpLen(ops[0])
    ensures Inserted(Drop(ops, n)) == Inserted(ops)
  {
    if n < OpLen(ops[0]) {
      assert Drop(ops, n)[1..] == ops[1..];
    } else {
      assert Drop(ops[1..], 0) == ops[1..];
    }
  }

  /** `a` keeps or drops the `x` in front of `t`; what is emitted for `b` then keeps or drops it too. */
  lemma EmitMeaning(x: string, t: string, a: Op, b: Op, rest: seq<Op>)
    requires x != [] && OpsOk(rest) && Consumed(rest) == |t| && OpOk(a) && OpOk(b) && !a.Insert? && !b.Insert?
    ensures var out, u := Emit(a, b, |x|) + rest, (if a.Retain? then x else []) + t;
            && OpsOk(out) && Consumed(out) == |u|
            && Apply(u, out) == (if a.Retain? && b.Retain? then x else []) + Apply(t, rest)
  {
    hide Apply;
    if a.Retain? {
      var op := if b.Retain? then Retain(|x|) else Delete(|x|);
      ApplyCons(x + t, op, rest);
      assert (x + t)[|x|..] == t && (x + t)[..|x|] == x;
    } else {
      assert Emit(a, b, |x|) + rest == rest && [] + t == t;
    }
  }

  /** Applying `a` and then `b` rebased over it gives the merge of the two. */
  lemma {:induction false} FollowMeaning(text: string, a: seq<Op>, b: seq<Op>)
    requires OpsOk(a) && OpsOk(b) && Consumed(a) == Consumed(b) == |text|
    ensures OpsOk(FollowOps(a, b)) && Consumed(FollowOps(a, b)) == |Apply(text, a)|
    ensures Apply(Apply(text, a), FollowOps(a, b)) == Merged(text, a, b)
    decreases Size(a) + Size(b)
  {
    SizeNat(a);
    SizeNat(b);
    FollowOk(a, b);
    ApplyLength(text, a);
    if First(a, b) {
      FollowMeaning(text, a[1..], b);
    } else if Inserting(b) {
      FollowMeaning(text, a, b[1..]);
    } else if a != [] && b != [] {
      var n := Overlap(a, b);
      DropHead(a, n);
      DropHead(b, n);
      DropApply(text, a, n);
      FollowMeaning(text[n..], Drop(a, n), Drop(b, n));
      EmitMeaning(text[..n], Apply(text[n..], Drop(a, n)), a[0], b[0], FollowOps(Drop(a, n), Drop(b, n)));
    } else {
      NothingLeft(a, b);
    }
  }

  // ----- when the two orders agree -----------------------------------------------------------------------

  /** The inserts at the front of the list. */
  function Gap(ops: seq<Op>): seq<string> {
    if Inserting(ops) then [ops[0].chars] + Gap(ops[1..]) else []
  }

  function PastGap(ops: seq<Op>): seq<Op> {
    if Inserting(ops) then PastGap(ops[1..]) else ops
  }

  /** Two runs of inserts at one place, in the order the tie-break gives them. */
  function Weave(x: seq<string>, y: seq<string>): string
    decreases |x| + |y|
  {
    if x != [] && (y != [] ==> Leq(x[0], y[0])) then x[0] + Weave(x[1..], y)
    else if y != [] then y[0] + Weave(x, y[1..])
    else []
  }

  /** At every place of the text, the inserts of the two lists read the same whichever list is given
      precedence. */
  predicate GapsAgree(a: seq<Op>, b: seq<Op>)
    requires OpsOk(a) && OpsOk(b)
    decreases Size(a) + Size(b)
  {
    PastGapOk(a);
    PastGapOk(b);
    var c, d := PastGap(a), PastGap(b);
    && Weave(Gap(a), Gap(b)) == Weave(Gap(b), Gap(a))
    && (c == [] || d == [] ||
        var n := Overlap(c, d);
        DropHead(c, n);
        DropHead(d, n);
        SizeNat(Drop(c, n));
        SizeNat(Drop(d, n));
        GapsAgree(Drop(c, n), Drop(d, n)))
  }

  lemma {:induction false} PastGapOk(ops: seq<Op>)
    requires OpsOk(ops)
    ensures OpsOk(PastGap(ops)) && !Inserting(PastGap(ops))
    ensures Consumed(PastGap(ops)) == Consumed(ops) && 0 <= Size(PastGap(ops)) <= Size(ops)
  {
    SizeNat(ops);
    if Inserting(ops) {
      PastGapOk(ops[1..]);
    }
  }

  lemma MergedStep(text: string, a: seq<Op>, b: seq<Op>)
    requires OpsOk(a) && OpsOk(b) && Consumed(a) == Consumed(b) == |text|
    ensures First(a, b) ==>
              && OpsOk(a[1..]) && Consumed(a[1..]) == |text|
              && Merged(text, a, b) == a[0].chars + Merged(text, a[1..], b)
    ensures !First(a, b) && Inserting(b) ==>
              && OpsOk(b[1..]) && Consumed(b[1..]) == |text|
              && Merged(text, a, b) == b[0].chars + Merged(text, a, b[1..])
  {
  }

  /** The merge writes the inserts of the first place, and goes on behind them. */
  lemma {:induction false} MergedGap(text: string, a: seq<Op>, b: seq<Op>)
    requires OpsOk(a) && OpsOk(b) && Consumed(a) == Consumed(b) == |text|
    ensures OpsOk(PastGap(a)) && OpsOk(PastGap(b)) && Consumed(PastGap(a)) == Consumed(PastGap(b)) == |text|
    ensures Merged(text, a, b) == Weave(Gap(a), Gap(b)) + Merged(text, PastGap(a), PastGap(b))
    decreases |a| + |b|
  {
    hide Leq, Merged, OpsOk, Consumed;
    PastGapOk(a);
    PastGapOk(b);
    MergedStep(text, a, b);
    if First(a, b) {
      MergedGap(text, a[1..], b);
    } else if Inserting(b) {
      MergedGap(text, a, b[1..]);
    }
  }

  lemma {:induction false} WeaveLength(x: seq<string>, y: seq<string>)
    ensures |Weave(x, y)| == |Weave(x, [])| + |Weave([], y)|
    decreases |x| + |y|
  {
    if x != [] && (y != [] ==> Leq(x[0], y[0])) {
      WeaveLength(x[1..], y);
    } else if y != [] {
      WeaveLength(x, y[1..]);
    }
  }

  lemma {:induction false} WeaveAlone(x: seq<string>)
    ensures Weave(x, []) == Weave([], x)
  {
    if x != [] {
      WeaveAlone(x[1..]);
    }
  }

  /** The merge does not depend on which changeset is given precedence exactly when the gaps agree. */
  lemma {:induction false} MergedCommutes(text: string, a: seq<Op>, b: seq<Op>)
    requires OpsOk(a) && OpsOk(b) && Consumed(a) == Consumed(b) == |text|
    ensures Merged(text, a, b) == Merged(text, b, a) <==> GapsAgree(a, b)
    decreases Size(a) + Size(b)
  {
    MergedGap(text, a, b);
    MergedGap(text, b, a);
    PastGapOk(a);
    PastGapOk(b);
    WeaveLength(Gap(a), Gap(b));
    WeaveLength(Gap(b), Gap(a));
    WeaveAlone(Gap(a));
    WeaveAlone(Gap(b));
    var c, d := PastGap(a), PastGap(b);
    var u, v := Weave(Gap(a), Gap(b)), Weave(Gap(b), Gap(a));
    ConcatEqual(u, v, Merged(text, c, d), Merged(text, d, c));
    NothingLeft(c, d);
    if c != [] && d != [] {
      var n := Overlap(c, d);
      DropHead(c, n);
      DropHead(d, n);
      OkReadable(Drop(c, n));
      MergedCommutes(text[n..], Drop(c, n), Drop(d, n));
      var x := if c[0].Retain? && d[0].Retain? then text[..n] else [];
      ConcatEqual(x, x, Merged(text[n..], Drop(c, n), Drop(d, n)), Merged(text[n..], Drop(d, n), Drop(c, n)));
    }
  }

  lemma ConcatEqual(u: string, v: string, x: string, y: string)
    requires |u| == |v|
    ensures u + x == v + y <==> u == v && x == y
  {
    assert (u + x)[..|u|] == u && (u + x)[|u|..] == x;
    assert (v + y)[..|v|] == v && (v + y)[|v|..] == y;
  }

  /** Without neighbouring inserts each gap holds at most one insert of each list, and all gaps agree. */
  lemma {:induction false} CanonicalGapsAgree(a: seq<Op>, b: seq<Op>)
    requires OpsOk(a) && OpsOk(b) && NoAdjacentInserts(a) && NoAdjacentInserts(b)
    ensures GapsAgree(a, b)
    decreases Size(a) + Size(b)
  {
    ShortGap(a);
    ShortGap(b);
    PastGapOk(a);
    PastGapOk(b);
    var x, y, c, d := Gap(a), Gap(b), PastGap(a), PastGap(b);
    assert Weave(x, y) == Weave(y, x) by {
      if x != [] && y != [] {
        LeqOrder(x[0], y[0]);
        assert x[1..] == [] && y[1..] == [];
      } else {
        WeaveAlone(x);
        WeaveAlone(y);
      }
    }
    if c != [] && d != [] {
      var n := Overlap(c, d);
      DropHead(c, n);
      DropHead(d, n);
      DropNoAdjacent(c, n);
      DropNoAdjacent(d, n);
      CanonicalGapsAgree(Drop(c, n), Drop(d, n));
    }
  }

  lemma ShortGap(ops: seq<Op>)
    requires OpsOk(ops) && NoAdjacentInserts(ops)
    ensures |Gap(ops)| <= 1 && NoAdjacentInserts(PastGap(ops))
  {
    if Inserting(ops) && |ops| > 1 {
      assert !Inserting(ops[1..]);
    }
  }

  lemma DropNoAdjacent(ops: seq<Op>, n: int)
    requires OpsOk(ops) && NoAdjacentInserts(ops) && ops != [] && !ops[0].Insert? && 0 < n <= OpLen(ops[0])
    ensures NoAdjacentInserts(Drop(ops, n))
  {
    var r := Drop(ops, n);
    assert n == OpLen(ops[0]) ==> r == Drop(ops[1..], 0) == ops[1..];
    forall i | 0 < i < |r| ensures !(r[i - 1].Insert? && r[i].Insert?) {
      if n < OpLen(ops[0]) {
        assert i > 1 ==> r[i - 1] == ops[i - 1];
        assert r[i] == ops[i];
      } else {
        assert r[i - 1] == ops[i] && r[i] == ops[i + 1];
      }
    }
  }

  // ----- what the rebased changeset is ----------------------------------------------------------------------

  /** The rebased changeset is valid on A's result, merged, and inserts exactly B's characters in
      order. */
  lemma FollowedOk(a: Changeset, b: Changeset)
    requires Valid(a) && Valid(b) && a.oldLen == b.oldLen
    ensures Valid(Followed(a, b)) && Followed(a, b).oldLen == a.newLen
    ensures Canonical(Followed(a, b).ops) && NoAdjacentInserts(Followed(a, b).ops)
    ensures Inserted(Followed(a, b).ops) == Inserted(b.ops)
  {
    FollowOk(a.ops, b.ops);
    AddAllOk([], FollowOps(a.ops, b.ops));
  }

  /** Any two changesets, valid or not for the same text, have a result whose operations are in order. */
  lemma FollowedOpsOk(a: Changeset, b: Changeset)
    requires OpsOk(a.ops) && OpsOk(b.ops)
    ensures OpsOk(Followed(a, b).ops) && Canonical(Followed(a, b).ops)
    ensures Produced(Followed(a, b).ops) == Followed(a, b).newLen && Followed(a, b).oldLen == a.newLen
  {
    FollowOk(a.ops, b.ops);
    AddAllOk([], FollowOps(a.ops, b.ops));
  }

  lemma FollowedMeaning(text: string, a: Changeset, b: Changeset)
    requires ValidOn(a, text) && ValidOn(b, text)
    ensures ValidOn(Followed(a, b), Text(text, a))
    ensures Text(Text(text, a), Followed(a, b)) == Merged(text, a.ops, b.ops)
  {
    FollowedOk(a, b);
    FollowMeaning(text, a.ops, b.ops);
    ApplyLength(text, a.ops);
    AddAllMeaning(Text(text, a), [], FollowOps(a.ops, b.ops));
    assert [] + FollowOps(a.ops, b.ops) == FollowOps(a.ops, b.ops);
  }

  /** The convergence law, exactly: A then B rebased equals B then A rebased if and only if the inserts
      the two make at the same place read the same in either precedence. */
  lemma ConvergesExactly(text: string, a: Changeset, b: Changeset)
    requires ValidOn(a, text) && ValidOn(b, text)
    ensures ValidOn(Followed(a, b), Text(text, a)) && ValidOn(Followed(b, a), Text(text, b))
    ensures Text(Text(text, a), Followed(a, b)) == Text(Text(text, b), Followed(b, a)) <==> GapsAgree(a.ops, b.ops)
  {
    FollowedMeaning(text, a, b);
    FollowedMeaning(text, b, a);
    MergedCommutes(text, a.ops, b.ops);
  }

  /** The convergence law for changesets without neighbouring inserts, which is what every changeset
      built through `addOp` is. */
  lemma Converges(text: string, a: Changeset, b: Changeset)
    requires ValidOn(a, text) && ValidOn(b, text) && NoAdjacentInserts(a.ops) && NoAdjacentInserts(b.ops)
    ensures ValidOn(Followed(a, b), Text(text, a)) && ValidOn(Followed(b, a), Text(text, b))
    ensures Text(Text(text, a), Followed(a, b)) == Text(Text(text, b), Followed(b, a))
  {
    ConvergesExactly(text, a, b);
    CanonicalGapsAgree(a.ops, b.ops);
  }

  /** `Validate` does not ask for merged inserts, and without them the law fails. */
  lemma ValidIsNotEnough()
    ensures var a := Changeset(0, 2, [Insert("b"), Insert("a")]);
            var b := Changeset(0, 1, [Insert("b")]);
            && ValidOn(a, "") && ValidOn(b, "")
            && !GapsAgree(a.ops, b.ops)
            && ValidOn(Followed(a, b), Text("", a)) && ValidOn(Followed(b, a), Text("", b))
            && Text(Text("", a), Followed(a, b)) != Text(Text("", b), Followed(b, a))
  {
    var a := Changeset(0, 2, [Insert("b"), Insert("a")]);
    var b := Changeset(0, 1, [Insert("b")]);
    assert a.ops[1..] == [Insert("a")] && b.ops[1..] == [] && [Insert("a")][1..] == [];
    assert Consumed(a.ops[1..]) == 0 && Produced(a.ops[1..]) == 1;
    assert Gap(a.ops) == ["b", "a"] && Gap(b.ops) == ["b"];
    assert ["b", "a"][1..] == ["a"] && ["a"][1..] == [] && ["b"][1..] == [];
    assert "b"[1..] == "" && "a"[1..] == "";
    assert Leq("b", "b") && Leq("a", "b") && !Leq("b", "a");
    calc {
      Weave(["b", "a"], ["b"]);
      "b" + Weave(["a"], ["b"]);
      "b" + ("a" + Weave([], ["b"]));
      "b" + ("a" + ("b" + Weave([], [])));
      "bab";
    }
    calc {
      Weave(["b"], ["b", "a"]);
      "b" + Weave([], ["b", "a"]);
      "b" + ("b" + Weave([], ["a"]));
      "b" + ("b" + ("a" + Weave([], [])));
      "bba";
    }
    assert "bab"[1] != "bba"[1];
    ConvergesExactly("", a, b);
  }
}
