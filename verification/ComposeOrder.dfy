/** In which order the operations of a composition stand, where their effect leaves it open. */
module ComposeOrder {
  import opened Changesets
  import opened Following
  import opened FollowOrder
  import opened Composing

  predicate EndsDeleting(ops: seq<Op>) {
    ops != [] && ops[|ops| - 1].Delete?
  }

  /** Operations that write nothing only delete. */
  lemma {:induction false} WritesNothing(ops: seq<Op>)
    requires OpsOk(ops) && Produced(ops) == 0 && !EndsDeleting(ops)
    ensures ops == []
  {
    if ops != [] {
      ProducedNat(ops[1..]);
      if |ops| > 1 {
        WritesNothing(ops[1..]);
      }
    }
  }

  /** The first `n` characters of a longer list are those of its front. */
  lemma DropFrontOf(ops: seq<Op>, more: seq<Op>, n: int)
    requires OpsOk(ops) && OpsOk(more) && ops != [] && 0 < n <= OpLen(ops[0])
    ensures OpsOk(ops + more) && OpsOk(Drop(ops, n)) && Drop(ops + more, n) == Drop(ops, n) + more
    ensures Size(Drop(ops, n)) == Size(ops) - n
    ensures Consumed(Drop(ops, n)) == Consumed(ops) - (if ops[0].Insert? then 0 else n)
    ensures Produced(Drop(ops, n)) == Produced(ops) - (if ops[0].Delete? then 0 else n)
    ensures !EndsDeleting(ops) ==> !EndsDeleting(Drop(ops, n))
    ensures !EndsInserting(ops) ==> !EndsInserting(Drop(ops, n))
  {
    hide Drop, Consumed, Produced, Size;
    DropHead(ops, n);
    assert (ops + more)[0] == ops[0] && (ops + more)[1..] == ops[1..] + more;
    if n < OpLen(ops[0]) {
      DropPart(ops, n);
      DropPart(ops + more, n);
    } else {
      DropWhole(ops);
      DropWhole(ops + more);
    }
  }

  lemma HeadsSame(a: seq<Op>, more: seq<Op>)
    requires OpsOk(a) && OpsOk(more) && a != []
    ensures OpsOk(a + more) && (a + more)[0] == a[0] && (a + more)[1..] == a[1..] + more && OpsOk(a[1..]) && OpOk(a[0])
    ensures 0 <= Size(a[1..]) < Size(a)
    ensures !EndsDeleting(a) ==> !EndsDeleting(a[1..])
    ensures !EndsInserting(a) ==> !EndsInserting(a[1..])
    ensures a[0].Insert? ==> Consumed(a[1..]) == Consumed(a)
    ensures a[0].Delete? ==> Produced(a[1..]) == Produced(a)
  {
    hide Consumed, Produced, Size, OpsOk;
    HeadFacts(a);
    AppendedOk(a, more);
    assert (a + more)[1..] == a[1..] + more;
  }

  lemma HeadFacts(a: seq<Op>)
    requires OpsOk(a) && a != []
    ensures OpsOk(a[1..]) && OpOk(a[0]) && 0 <= Size(a[1..]) < Size(a)
    ensures a[0].Insert? ==> Consumed(a[1..]) == Consumed(a)
    ensures a[0].Delete? ==> Produced(a[1..]) == Produced(a)
  {
    SizeNat(a[1..]);
  }

  /** Lists that meet in the middle are composed front with front and rest with rest, as long as no place is
      split. */
  lemma {:induction false} ComposeSplit(a: seq<Op>, more: seq<Op>, b: seq<Op>, rest: seq<Op>)
    requires OpsOk(a) && OpsOk(more) && OpsOk(b) && OpsOk(rest) && !EndsDeleting(a) && !EndsInserting(b)
    requires Produced(a) == Consumed(b)
    ensures OpsOk(a + more) && OpsOk(b + rest)
    ensures ComposeOps(a + more, b + rest) == ComposeOps(a, b) + ComposeOps(more, rest)
    decreases Size(a) + Size(b)
  {
    hide ComposeOps, Drop, Consumed, Produced, Size, OpsOk, EmitComposed, EndsDeleting, EndsInserting;
    if a == [] || b == [] {
      NothingToSplit(a, more, b, rest);
    } else {
      HeadsSame(a, more);
      HeadsSame(b, rest);
      ComposeStep(a, b);
      ComposeStep(a + more, b + rest);
      SizeNat(a);
      SizeNat(b);
      if Inserting(b) {
        ComposeSplit(a, more, b[1..], rest);
      } else if Deleting(a) {
        ComposeSplit(a[1..], more, b, rest);
      } else {
        var n := Overlap(a, b);
        DropFrontOf(a, more, n);
        DropFrontOf(b, rest, n);
        SizeNat(Drop(a, n));
        SizeNat(Drop(b, n));
        ComposeSplit(Drop(a, n), more, Drop(b, n), rest);
      }
    }
  }

  lemma NothingToSplit(a: seq<Op>, more: seq<Op>, b: seq<Op>, rest: seq<Op>)
    requires OpsOk(a) && OpsOk(more) && OpsOk(b) && OpsOk(rest) && !EndsDeleting(a) && !EndsInserting(b)
    requires Produced(a) == Consumed(b) && (a == [] || b == [])
    ensures a == [] && b == [] && a + more == more && b + rest == rest && ComposeOps(a, b) == []
  {
    if a == [] {
      ReadsNothing(b);
    } else {
      WritesNothing(a);
    }
  }

  /** Where B inserts and A deletes, the insert stands before the deletion. */
  lemma InsertBeforeDelete(a: seq<Op>, n: int, more: seq<Op>, b: seq<Op>, s: string, rest: seq<Op>)
    requires OpsOk(a) && OpsOk(more) && OpsOk(b) && OpsOk(rest) && n > 0 && s != []
    requires !EndsDeleting(a) && !EndsInserting(b) && !Inserting(rest) && Produced(a) == Consumed(b)
    ensures OpsOk(a + ([Delete(n)] + more)) && OpsOk(b + ([Insert(s)] + rest))
    ensures ComposeOps(a + ([Delete(n)] + more), b + ([Insert(s)] + rest))
         == ComposeOps(a, b) + ([Insert(s)] + ([Delete(n)] + ComposeOps(more, rest)))
  {
    hide ComposeOps, Consumed, Produced;
    var x, y := [Delete(n)] + more, [Insert(s)] + rest;
    assert x[1..] == more && y[1..] == rest;
    ComposeStep(x, y);
    ComposeStep(x, rest);
    ComposeSplit(a, x, b, y);
  }
}
