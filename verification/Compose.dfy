/** Composition: `Compose(A, B)` is one changeset with the effect of A and then B. */
module Composing {
  import opened Changesets
  import opened Following
  import opened Cursors

  /** What A's next `n` characters become under B. */
  function EmitComposed(a: Op, b: Op, n: int): seq<Op>
    requires 0 <= n <= OpLen(a)
  {
    if a.Retain? && b.Retain? then [Retain(n)]
    else if a.Retain? && b.Delete? then [Delete(n)]
    else if a.Insert? && b.Retain? then [Insert(a.chars[..n])]
    else []
  }

  predicate Deleting(ops: seq<Op>) {
    ops != [] && ops[0].Delete?
  }

  function ComposeOps(a: seq<Op>, b: seq<Op>): seq<Op>
    requires OpsOk(a) && OpsOk(b)
    decreases Size(a) + Size(b)
  {
    SizeNat(a);
    SizeNat(b);
    if Inserting(b) then
      SizeNat(b[1..]);
      [b[0]] + ComposeOps(a, b[1..])
    else if Deleting(a) then
      SizeNat(a[1..]);
      [a[0]] + ComposeOps(a[1..], b)
    else if a == [] || b == [] then []
    else
      var n := Overlap(a, b);
      TakePart(a, n);
      TakePart(b, n);
      EmitComposed(a[0], b[0], n) + ComposeOps(Drop(a, n), Drop(b, n))
  }

  function Composed(a: Changeset, b: Changeset): Changeset
    requires OpsOk(a.ops) && OpsOk(b.ops)
  {
    Changeset(a.oldLen, b.newLen, AddAll([], ComposeOps(a.ops, b.ops)))
  }

  lemma WalkEnds(a: seq<Op>, b: seq<Op>)
    requires OpsOk(a) && OpsOk(b) && Produced(a) == Consumed(b) && !Inserting(b) && !Deleting(a)
    ensures a == [] <==> b == []
  {
    if a != [] {
      ProducedNat(a[1..]);
    }
    if b != [] {
      OkReadable(b[1..]);
    }
  }

  lemma {:induction false} ComposeOk(a: seq<Op>, b: seq<Op>)
    requires OpsOk(a) && OpsOk(b)
    ensures OpsOk(ComposeOps(a, b))
    ensures Produced(a) == Consumed(b) ==>
              Consumed(ComposeOps(a, b)) == Consumed(a) && Produced(ComposeOps(a, b)) == Produced(b)
    decreases Size(a) + Size(b)
  {
    SizeNat(a);
    SizeNat(b);
    if Inserting(b) {
      ComposeOk(a, b[1..]);
    } else if Deleting(a) {
      ComposeOk(a[1..], b);
    } else if a != [] && b != [] {
      var n := Overlap(a, b);
      DropHead(a, n);
      DropHead(b, n);
      ComposeOk(Drop(a, n), Drop(b, n));
      var out := EmitComposed(a[0], b[0], n);
      ConsumedConcat(out, ComposeOps(Drop(a, n), Drop(b, n)));
      if out != [] {
        Single(out[0]);
      }
    } else if Produced(a) == Consumed(b) {
      WalkEnds(a, b);
    }
  }

  /** An insert writes its first `n` characters, then the rest of it. */
  lemma ShortenInsert(text: string, op: Op, rest: seq<Op>, n: int)
    requires OpOk(op) && op.Insert? && 0 < n < OpLen(op) && Readable(rest) && Consumed(rest) == |text|
    ensures Readable([op] + rest) && Readable([Shorten(op, n)] + rest)
    ensures Consumed([op] + rest) == |text| && Consumed([Shorten(op, n)] + rest) == |text|
    ensures Apply(text, [op] + rest) == op.chars[..n] + Apply(text, [Shorten(op, n)] + rest)
  {
    hide Apply, Consumed, Readable;
    assert text[0..] == text;
    ApplyCons(text, op, rest);
    ApplyCons(text, Shorten(op, n), rest);
    assert op.chars == op.chars[..n] + op.chars[n..];
  }

  /** A list that begins with an insert writes the first `n` inserted characters, then the rest. */
  lemma DropInsert(text: string, ops: seq<Op>, n: int)
    requires OpsOk(ops) && Inserting(ops) && 0 < n <= OpLen(ops[0]) && Consumed(ops) == |text|
    ensures OpsOk(Drop(ops, n)) && Consumed(Drop(ops, n)) == |text|
    ensures Apply(text, ops) == ops[0].chars[..n] + Apply(text, Drop(ops, n))
  {
    hide Apply, Drop, Readable, Consumed, OpsOk;
    var op, rest := ops[0], ops[1..];
    DropHead(ops, n);
    TailOk(ops);
    OkReadable(rest);
    OkReadable(Drop(ops, n));
    assert ops == [op] + rest && text[0..] == text;
    ConsumedConcat([op], rest);
    Single(op);
    if n < OpLen(op) {
      DropPart(ops, n);
      ShortenInsert(text, op, rest, n);
    } else {
      DropWhole(ops);
      ApplyCons(text, op, rest);
    }
  }

  /** What is emitted for the next characters has the effect of A on the source and then of B on `x`,
      which is what A writes there. */
  lemma EmitComposedMeaning(text: string, x: string, k: int, a: Op, b: Op, n: int, rest: seq<Op>, t: string)
    requires OpOk(a) && OpOk(b) && !a.Delete? && !b.Insert? && 0 < n <= OpLen(a)
    requires k == (if a.Retain? then n else 0) && k <= |text| && x == if a.Retain? then text[..n] else a.chars[..n]
    requires OpsOk(rest) && Consumed(rest) == |text[k..]| && t == Apply(text[k..], rest)
    ensures var out := EmitComposed(a, b, n) + rest;
            && OpsOk(out) && Consumed(out) == |text|
            && Apply(text, out) == (if b.Retain? then x else []) + t
  {
    hide Apply;
    assert text[0..] == text;
    if EmitComposed(a, b, n) == [] {
      assert EmitComposed(a, b, n) + rest == rest;
    } else {
      ApplyCons(text, EmitComposed(a, b, n)[0], rest);
    }
  }

  lemma {:induction false} ComposeMeaning(text: string, a: seq<Op>, b: seq<Op>)
    requires OpsOk(a) && OpsOk(b) && Consumed(a) == |text| && Produced(a) == Consumed(b)
    ensures OpsOk(ComposeOps(a, b)) && Consumed(ComposeOps(a, b)) == |text| && |Apply(text, a)| == Consumed(b)
    ensures Apply(text, ComposeOps(a, b)) == Apply(Apply(text, a), b)
    decreases Size(a) + Size(b)
  {
    SizeNat(a);
    SizeNat(b);
    ComposeOk(a, b);
    ApplyLength(text, a);
    if Inserting(b) {
      ComposeMeaning(text, a, b[1..]);
    } else if Deleting(a) {
      OkReadable(a[1..]);
      ComposeMeaning(text[a[0].len..], a[1..], b);
    } else if a != [] && b != [] {
      ComposeBoth(text, a, b);
    } else {
      WalkEnds(a, b);
    }
  }

  lemma ComposeBoth(text: string, a: seq<Op>, b: seq<Op>)
    requires OpsOk(a) && OpsOk(b) && Consumed(a) == |text| && Produced(a) == Consumed(b)
    requires a != [] && b != [] && !Inserting(b) && !Deleting(a)
    requires |Apply(text, a)| == Consumed(b)
    ensures OpsOk(ComposeOps(a, b)) && Consumed(ComposeOps(a, b)) == |text|
    ensures Apply(text, ComposeOps(a, b)) == Apply(Apply(text, a), b)
    decreases Size(a) + Size(b), 0
  {
    hide Apply;
    var n := Overlap(a, b);
    TakePart(a, n);
    TakePart(b, n);
    DropHead(a, n);
    DropHead(b, n);
    SizeNat(a);
    SizeNat(b);
    var k := if a[0].Retain? then n else 0;
    var a', b' := Drop(a, n), Drop(b, n);
    OkReadable(a');
    if a[0].Retain? {
      DropApply(text, a, n);
    } else {
      DropInsert(text, a, n);
      assert text[0..] == text;
    }
    var x := if a[0].Retain? then text[..n] else a[0].chars[..n];
    var y := Apply(text[k..], a');
    assert Apply(text, a) == x + y;
    ComposeMeaning(text[k..], a', b');
    DropApply(x + y, b, n);
    assert (x + y)[..n] == x && (x + y)[n..] == y;
    EmitComposedMeaning(text, x, k, a[0], b[0], n, ComposeOps(a', b'), Apply(y, b'));
  }

  /** Composition is valid, merged, and has the effect of A and then B. */
  lemma ComposedMeaning(text: string, a: Changeset, b: Changeset)
    requires ValidOn(a, text) && Valid(b) && a.newLen == b.oldLen
    ensures ValidOn(Composed(a, b), text) && ValidOn(b, Text(text, a))
    ensures Canonical(Composed(a, b).ops)
    ensures Text(text, Composed(a, b)) == Text(Text(text, a), b)
  {
    ComposeOk(a.ops, b.ops);
    ComposeMeaning(text, a.ops, b.ops);
    AddAllOk([], ComposeOps(a.ops, b.ops));
    AddAllMeaning(text, [], ComposeOps(a.ops, b.ops));
    assert [] + ComposeOps(a.ops, b.ops) == ComposeOps(a.ops, b.ops);
  }

  /** Composition is associative in effect. */
  lemma ComposedAssociative(text: string, a: Changeset, b: Changeset, c: Changeset)
    requires ValidOn(a, text) && Valid(b) && Valid(c) && a.newLen == b.oldLen && b.newLen == c.oldLen
    ensures ValidOn(Composed(a, b), text) && ValidOn(Composed(b, c), Text(text, a))
    ensures ValidOn(Composed(Composed(a, b), c), text) && ValidOn(Composed(a, Composed(b, c)), text)
    ensures Text(text, Composed(Composed(a, b), c)) == Text(text, Composed(a, Composed(b, c)))
  {
    ComposedMeaning(text, a, b);
    ComposedMeaning(text, Composed(a, b), c);
    ApplyLength(text, a.ops);
    ComposedMeaning(Text(text, a), b, c);
    ComposedMeaning(text, a, Composed(b, c));
  }

  // ----- the loop ---------------------------------------------------------------------------------------------

  lemma ComposeStep(x: seq<Op>, y: seq<Op>)
    requires OpsOk(x) && OpsOk(y)
    ensures Inserting(y) ==> OpsOk(y[1..]) && ComposeOps(x, y) == [y[0]] + ComposeOps(x, y[1..])
    ensures !Inserting(y) && Deleting(x) ==> OpsOk(x[1..]) && ComposeOps(x, y) == [x[0]] + ComposeOps(x[1..], y)
    ensures !Inserting(y) && !Deleting(x) && (x == [] || y == []) ==> ComposeOps(x, y) == []
    ensures !Inserting(y) && !Deleting(x) && x != [] && y != [] ==>
              var n := Overlap(x, y);
              && OpsOk(Drop(x, n)) && OpsOk(Drop(y, n))
              && ComposeOps(x, y) == EmitComposed(x[0], y[0], n) + ComposeOps(Drop(x, n), Drop(y, n))
              && (x[0].Insert? && y[0].Delete? ==> ComposeOps(x, y) == ComposeOps(Drop(x, n), Drop(y, n)))
  {
    SizeNat(x);
    SizeNat(y);
    if !Inserting(y) && !Deleting(x) && x != [] && y != [] {
      DropHead(x, Overlap(x, y));
      DropHead(y, Overlap(x, y));
    }
  }

  /** `Compose`: the two-cursor loop. */
  method Compose(a: Changeset, b: Changeset) returns (result: Changeset)
    requires OpsOk(a.ops) && OpsOk(b.ops)
    ensures result == Composed(a, b)
  {
    hide ComposeOps, AddOp, AddAll, Drop, Size, OpsOk, Produced;
    AddNothing([]);
    var ops: seq<Op> := [];
    var aSlice := new OpSlice(a.ops);
    var bSlice := new OpSlice(b.ops);
    while true
      invariant aSlice.Valid() && bSlice.Valid() && aSlice != bSlice && fresh(aSlice) && fresh(bSlice)
      invariant OpsOk(ops)
      invariant AddAll(ops, ComposeOps(aSlice.Remaining(), bSlice.Remaining()))
             == AddAll([], ComposeOps(a.ops, b.ops))
      decreases Size(aSlice.Remaining()) + Size(bSlice.Remaining())
    {
      ghost var x, y := aSlice.Remaining(), bSlice.Remaining();
      var bOp, aOp := bSlice.Peek(), aSlice.Peek();
      SizeNat(x);
      SizeNat(y);
      ComposeStep(x, y);
      AddNothing(ops);
      if bOp.Err? && aOp.Err? {
        break;
      }
      if bOp.Ok? && bOp.value.Insert? {
        ops := Add(ops, Insert(bOp.value.chars), ComposeOps(x, y[1..]));
        TakeFirst(y);
        bSlice.Consume(|bOp.value.chars|);
        continue;
      }
      if aOp.Ok? && aOp.value.Delete? {
        ops := Add(ops, Delete(aOp.value.len), ComposeOps(x[1..], y));
        TakeFirst(x);
        aSlice.Consume(aOp.value.len);
        continue;
      }
      if aOp.Err? || bOp.Err? {
        break;
      }
      var n := OpLen(aOp.value);
      if OpLen(bOp.value) < n {
        n := OpLen(bOp.value);
      }
      TakePart(x, n);
      TakePart(y, n);
      if aOp.value.Retain? && bOp.value.Retain? {
        ops := Add(ops, Retain(n), ComposeOps(Drop(x, n), Drop(y, n)));
      } else if aOp.value.Retain? && bOp.value.Delete? {
        ops := Add(ops, Delete(n), ComposeOps(Drop(x, n), Drop(y, n)));
      } else if aOp.value.Insert? && bOp.value.Retain? {
        ops := Add(ops, Insert(aOp.value.chars[..n]), ComposeOps(Drop(x, n), Drop(y, n)));
      }
      aSlice.Consume(n);
      bSlice.Consume(n);
    }
    result := Changeset(a.oldLen, b.newLen, ops);
  }
}
