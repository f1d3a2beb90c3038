/** Which characters a rebased changeset deletes.

    A changeset marks every source character as kept or deleted.  Rebasing B over A carries B's marks
    along with the characters A retains, and keeps everything A inserted: B rebased deletes exactly
    what B deletes and A retains. */
module FollowMarks {
  import opened Changesets
  import opened Following

  function Marks(n: int, kept: bool): seq<bool> {
    if n <= 0 then [] else seq(n, _ => kept)
  }

  lemma MarksSplit(n: int, m: int, kept: bool)
    requires 0 <= m <= n
    ensures |Marks(n, kept)| == n && Marks(n, kept) == Marks(m, kept) + Marks(n - m, kept)
    ensures Marks(n, kept)[..m] == Marks(m, kept) && Marks(n, kept)[m..] == Marks(n - m, kept)
  {
  }

  function OpMarks(op: Op): seq<bool> {
    if op.Insert? then [] else Marks(OpConsumed(op), op.Retain?)
  }

  /** For every source character, whether the operations keep it. */
  function KeepMarks(ops: seq<Op>): seq<bool> {
    if ops == [] then [] else OpMarks(ops[0]) + KeepMarks(ops[1..])
  }

  /** The marks of the characters `a` retains, with a mark "kept" for every character it inserts. */
  function Carried(a: seq<Op>, marks: seq<bool>): seq<bool>
    requires OpsOk(a) && Consumed(a) == |marks|
    decreases |a|
  {
    if a == [] then []
    else
      OkReadable(a[1..]);
      match a[0]
      case Retain(n) => marks[..n] + Carried(a[1..], marks[n..])
      case Insert(s) => Marks(|s|, true) + Carried(a[1..], marks)
      case Delete(n) => Carried(a[1..], marks[n..])
  }

  lemma {:induction false} KeptLength(ops: seq<Op>)
    requires OpsOk(ops)
    ensures |KeepMarks(ops)| == Consumed(ops)
  {
    if ops != [] {
      MarksSplit(if ops[0].Insert? then 0 else OpConsumed(ops[0]), 0, ops[0].Retain?);
      KeptLength(ops[1..]);
    }
  }

  lemma {:induction false} KeptConcat(a: seq<Op>, b: seq<Op>)
    ensures KeepMarks(a + b) == KeepMarks(a) + KeepMarks(b)
  {
    if a == [] {
      assert a + b == b;
    } else {
      assert (a + b)[1..] == a[1..] + b;
      KeptConcat(a[1..], b);
    }
  }

  lemma KeptDrop(ops: seq<Op>, n: int)
    requires OpsOk(ops) && ops != [] && !ops[0].Insert? && 0 < n <= OpLen(ops[0])
    ensures KeepMarks(ops) == Marks(n, ops[0].Retain?) + KeepMarks(Drop(ops, n))
  {
    hide KeepMarks, Marks, Drop;
    var op, rest, m := ops[0], ops[1..], OpLen(ops[0]);
    assert ops == [op] + rest;
    KeptConcat([op], rest);
    KeptSingle(op);
    if n < m {
      MarksSplit(m, n, op.Retain?);
      DropPart(ops, n);
      KeptConcat([Shorten(op, n)], rest);
      KeptSingle(Shorten(op, n));
    } else {
      DropWhole(ops);
    }
  }

  lemma CarriedDrop(a: seq<Op>, n: int, x: seq<bool>, rest: seq<bool>)
    requires OpsOk(a) && a != [] && !a[0].Insert? && 0 < n <= OpLen(a[0]) && |x| == n
    requires Consumed(a) == |x + rest|
    ensures OpsOk(Drop(a, n)) && Consumed(Drop(a, n)) == |rest|
    ensures Carried(a, x + rest) == (if a[0].Retain? then x else []) + Carried(Drop(a, n), rest)
  {
    DropHead(a, n);
    OkReadable(a[1..]);
    var m, marks := OpLen(a[0]), x + rest;
    if n < m {
      var d := Drop(a, n);
      assert d[0] == Shorten(a[0], n) && d[1..] == a[1..];
      assert marks[m..] == rest[m - n..];
      assert marks[..m] == x + rest[..m - n];
    } else {
      assert Drop(a[1..], 0) == a[1..];
      assert marks[n..] == rest && marks[..n] == x;
    }
  }

  lemma {:induction false} FollowCarries(a: seq<Op>, b: seq<Op>)
    requires OpsOk(a) && OpsOk(b) && Consumed(a) == Consumed(b)
    ensures |KeepMarks(b)| == Consumed(a) && KeepMarks(FollowOps(a, b)) == Carried(a, KeepMarks(b))
    decreases Size(a) + Size(b)
  {
    SizeNat(a);
    SizeNat(b);
    KeptLength(b);
    if First(a, b) {
      FollowCarries(a[1..], b);
      KeptConcat([Retain(|a[0].chars|)], FollowOps(a[1..], b));
      KeptSingle(Retain(|a[0].chars|));
    } else if Inserting(b) {
      assert KeepMarks(b) == KeepMarks(b[1..]);
      FollowCarries(a, b[1..]);
      KeptConcat([b[0]], FollowOps(a, b[1..]));
      KeptSingle(b[0]);
    } else if a != [] && b != [] {
      var n := Overlap(a, b);
      DropHead(a, n);
      DropHead(b, n);
      FollowCarries(Drop(a, n), Drop(b, n));
      KeptDrop(b, n);
      MarksSplit(n, 0, b[0].Retain?);
      CarriedDrop(a, n, Marks(n, b[0].Retain?), KeepMarks(Drop(b, n)));
      KeptConcat(Emit(a[0], b[0], n), FollowOps(Drop(a, n), Drop(b, n)));
      if a[0].Retain? {
        KeptSingle(Emit(a[0], b[0], n)[0]);
      }
    } else {
      NothingLeft(a, b);
    }
  }

  lemma KeptSingle(op: Op)
    ensures KeepMarks([op]) == OpMarks(op)
  {
    assert [op][1..] == [];
  }

  lemma AddOpKept(ops: seq<Op>, op: Op)
    requires OpsOk(ops) && OpOk(op)
    ensures KeepMarks(AddOp(ops, op)) == KeepMarks(ops) + OpMarks(op)
  {
    hide KeepMarks, Marks;
    KeptSingle(op);
    if ops != [] && SameKind(ops[|ops| - 1], op) {
      var front, last := ops[..|ops| - 1], ops[|ops| - 1];
      var merged := MergeOps(last, op);
      assert ops == front + [last];
      KeptConcat(front, [last]);
      KeptConcat(front, [merged]);
      KeptSingle(last);
      KeptSingle(merged);
      if !op.Insert? {
        MarksSplit(OpConsumed(merged), OpConsumed(last), op.Retain?);
      }
    } else {
      KeptConcat(ops, [op]);
    }
  }

  lemma {:induction false} AddAllKept(ops: seq<Op>, more: seq<Op>)
    requires OpsOk(ops) && OpsOk(more)
    ensures KeepMarks(AddAll(ops, more)) == KeepMarks(ops) + KeepMarks(more)
    decreases |more|
  {
    hide OpsOk, AddOp, Canonical, KeepMarks, AddAll;
    if more == [] {
      AddAllNothing(ops);
      KeptConcat(ops, []);
      assert ops + [] == ops;
    } else {
      var op, rest := more[0], more[1..];
      assert more == [op] + rest;
      TailOk(more);
      AddOpOk(ops, op);
      AddOpKept(ops, op);
      AddAllCons(ops, op, rest);
      KeptConcat([op], rest);
      KeptSingle(op);
      AddAllKept(AddOp(ops, op), rest);
    }
  }

  /** B rebased over A deletes exactly the characters B deletes and A retains, and nothing A inserted. */
  lemma FollowedDeletes(a: Changeset, b: Changeset)
    requires Valid(a) && Valid(b) && a.oldLen == b.oldLen
    ensures |KeepMarks(b.ops)| == Consumed(a.ops)
    ensures KeepMarks(Followed(a, b).ops) == Carried(a.ops, KeepMarks(b.ops))
  {
    FollowOk(a.ops, b.ops);
    FollowCarries(a.ops, b.ops);
    AddAllKept([], FollowOps(a.ops, b.ops));
  }
}
