/** Changesets of the EasySync engine: what they are, when they are valid, and what they mean.

    The meaning of a changeset is `Apply`, a function on the list of operations; `Text` and every
    other operation of the engine is judged against it.  Texts are sequences of characters: client
    and server share one alphabet and one order on it. */
module Changesets {
  datatype Result<+T> = Ok(value: T) | Err

  /** `Unknown` stands for an operation whose type name is none of the three. */
  datatype Op = Retain(len: int) | Insert(chars: string) | Delete(len: int) | Unknown(name: string)

  datatype Changeset = Changeset(oldLen: int, newLen: int, ops: seq<Op>)

  // ----- lengths and validity ----------------------------------------------------------------------

  predicate OpOk(op: Op) {
    match op
    case Retain(n) => n > 0
    case Insert(s) => s != []
    case Delete(n) => n > 0
    case Unknown(_) => false
  }

  predicate OpsOk(ops: seq<Op>) {
    forall i | 0 <= i < |ops| :: OpOk(ops[i])
  }

  function OpConsumed(op: Op): int {
    match op
    case Retain(n) => n
    case Delete(n) => n
    case _ => 0
  }

  function OpProduced(op: Op): int {
    match op
    case Retain(n) => n
    case Insert(s) => |s|
    case _ => 0
  }

  /** How many source characters the operations read. */
  function Consumed(ops: seq<Op>): int {
    if ops == [] then 0 else OpConsumed(ops[0]) + Consumed(ops[1..])
  }

  /** How many characters the operations write. */
  function Produced(ops: seq<Op>): int {
    if ops == [] then 0 else OpProduced(ops[0]) + Produced(ops[1..])
  }

  predicate Valid(c: Changeset) {
    OpsOk(c.ops) && Consumed(c.ops) == c.oldLen && Produced(c.ops) == c.newLen
  }

  /** No negative length: the source would slice backwards. */
  predicate Readable(ops: seq<Op>) {
    forall i | 0 <= i < |ops| :: OpConsumed(ops[i]) >= 0
  }

  predicate Known(ops: seq<Op>) {
    forall i | 0 <= i < |ops| :: !ops[i].Unknown?
  }

  // ----- meaning ----------------------------------------------------------------------------------------

  lemma ConsumedNat(ops: seq<Op>)
    requires Readable(ops)
    ensures Consumed(ops) >= 0
  {
  }

  lemma {:induction false} ProducedNat(ops: seq<Op>)
    requires OpsOk(ops)
    ensures Produced(ops) >= 0
  {
    if ops != [] {
      ProducedNat(ops[1..]);
    }
  }

  /** The text the operations make of `text`. */
  function Apply(text: string, ops: seq<Op>): string
    requires Readable(ops) && Consumed(ops) == |text|
    decreases |ops|
  {
    if ops == [] then []
    else
      ConsumedNat(ops[1..]);
      match ops[0]
      case Retain(n) => text[..n] + Apply(text[n..], ops[1..])
      case Insert(s) => s + Apply(text, ops[1..])
      case Delete(n) => Apply(text[n..], ops[1..])
      case Unknown(_) => Apply(text, ops[1..])
  }

  /** `c` is a valid changeset of a text of this length. */
  predicate ValidOn(c: Changeset, text: string) {
    Valid(c) && c.oldLen == |text|
  }

  function Text(text: string, c: Changeset): string
    requires ValidOn(c, text)
  {
    Apply(text, c.ops)
  }

  lemma {:induction false} ApplyLength(text: string, ops: seq<Op>)
    requires OpsOk(ops) && Consumed(ops) == |text|
    ensures |Apply(text, ops)| == Produced(ops)
    decreases |ops|
  {
    if ops != [] {
      ConsumedNat(ops[1..]);
      ApplyLength(if ops[0].Insert? then text else text[OpConsumed(ops[0])..], ops[1..]);
    }
  }

  lemma {:induction false} ConsumedConcat(a: seq<Op>, b: seq<Op>)
    ensures Consumed(a + b) == Consumed(a) + Consumed(b)
    ensures Produced(a + b) == Produced(a) + Produced(b)
  {
    if a == [] {
      assert a + b == b;
    } else {
      assert (a + b)[1..] == a[1..] + b;
      ConsumedConcat(a[1..], b);
    }
  }

  /** What the first operation contributes to the result. */
  function Head(text: string, op: Op): string
    requires 0 <= OpConsumed(op) <= |text|
  {
    match op
    case Retain(n) => text[..n]
    case Insert(s) => s
    case _ => []
  }

  lemma ApplyCons(text: string, op: Op, rest: seq<Op>)
    requires 0 <= OpConsumed(op) && Readable(rest) && OpConsumed(op) + Consumed(rest) == |text|
    ensures OpConsumed(op) <= |text| && Readable([op] + rest) && Consumed([op] + rest) == |text|
    ensures Apply(text, [op] + rest) == Head(text, op) + Apply(text[OpConsumed(op)..], rest)
  {
    ConsumedNat(rest);
    assert ([op] + rest)[1..] == rest;
    assert text[0..] == text;
  }

  /** Prefixing an operation to a list that works on the front of the text. */
  lemma ApplyConsConcat(text: string, op: Op, rest: seq<Op>, b: seq<Op>, n: int, c: int)
    requires n == OpConsumed(op) >= 0 && c == Consumed(rest) >= 0 && Readable(rest) && Readable(b)
    requires Readable(rest + b) && Consumed(rest + b) == |text| - n && Consumed(b) == |text| - n - c >= 0
    requires Apply(text[n..], rest + b) == Apply(text[n..n + c], rest) + Apply(text[n + c..], b)
    ensures Readable([op] + rest) && Consumed([op] + rest) == n + c
    ensures Readable([op] + (rest + b)) && Consumed([op] + (rest + b)) == |text|
    ensures Apply(text, [op] + (rest + b)) == Apply(text[..n + c], [op] + rest) + Apply(text[n + c..], b)
  {
    hide Apply, Consumed, Readable, Head;
    ApplyCons(text, op, rest + b);
    ApplyCons(text[..n + c], op, rest);
    HeadOfPrefix(text, op, n + c);
  }

  lemma HeadOfPrefix(text: string, op: Op, k: int)
    requires 0 <= OpConsumed(op) <= k <= |text|
    ensures Head(text[..k], op) == Head(text, op) && text[..k][OpConsumed(op)..] == text[OpConsumed(op)..k]
  {
  }

  /** A list of operations works on the front of the text, the rest of the list on the rest. */
  lemma {:induction false} ApplyConcat(text: string, a: seq<Op>, b: seq<Op>)
    requires Readable(a) && Readable(b) && Consumed(a) + Consumed(b) == |text|
    ensures Consumed(a + b) == |text| && 0 <= Consumed(a) <= |text|
    ensures Apply(text, a + b) == Apply(text[..Consumed(a)], a) + Apply(text[Consumed(a)..], b)
    decreases |a|
  {
    hide Apply;
    ConsumedConcat(a, b);
    ConsumedNat(a);
    ConsumedNat(b);
    if a == [] {
      assert a + b == b && text[0..] == text;
      ApplyNothing();
    } else {
      var op, rest := a[0], a[1..];
      var n, c := OpConsumed(op), Consumed(rest);
      ConsumedNat(rest);
      ApplyConcat(text[n..], rest, b);
      assert text[n..][..c] == text[n..n + c] && text[n..][c..] == text[n + c..];
      ApplyConsConcat(text, op, rest, b, n, c);
      assert a == [op] + rest && a + b == [op] + (rest + b);
    }
  }

  lemma ApplyNothing()
    ensures Apply([], []) == []
  {
  }

  // ----- the output of the engine: neighbours of one kind are merged ---------------------------------------

  predicate SameKind(a: Op, b: Op) {
    (a.Retain? && b.Retain?) || (a.Insert? && b.Insert?) || (a.Delete? && b.Delete?)
  }

  function MergeOps(a: Op, b: Op): Op
    requires SameKind(a, b)
  {
    match a
    case Retain(n) => Retain(n + b.len)
    case Insert(s) => Insert(s + b.chars)
    case Delete(n) => Delete(n + b.len)
  }

  /** `addOp`: append an operation, merging it into the last one if both are of the same kind. */
  function AddOp(ops: seq<Op>, op: Op): seq<Op> {
    if ops != [] && SameKind(ops[|ops| - 1], op) then ops[..|ops| - 1] + [MergeOps(ops[|ops| - 1], op)]
    else ops + [op]
  }

  function AddAll(ops: seq<Op>, more: seq<Op>): seq<Op>
    decreases |more|
  {
    if more == [] then ops else AddAll(AddOp(ops, more[0]), more[1..])
  }

  lemma AddAllCons(ops: seq<Op>, op: Op, rest: seq<Op>)
    ensures AddAll(ops, [op] + rest) == AddAll(AddOp(ops, op), rest)
  {
    assert ([op] + rest)[1..] == rest;
  }

  predicate Canonical(ops: seq<Op>) {
    forall i | 0 < i < |ops| :: !SameKind(ops[i - 1], ops[i])
  }

  predicate NoAdjacentInserts(ops: seq<Op>) {
    forall i | 0 < i < |ops| :: !(ops[i - 1].Insert? && ops[i].Insert?)
  }

  /** The characters inserted, in order. */
  function Inserted(ops: seq<Op>): string {
    if ops == [] then []
    else (if ops[0].Insert? then ops[0].chars else []) + Inserted(ops[1..])
  }

  lemma {:induction false} InsertedConcat(a: seq<Op>, b: seq<Op>)
    ensures Inserted(a + b) == Inserted(a) + Inserted(b)
  {
    if a == [] {
      assert a + b == b;
    } else {
      assert (a + b)[1..] == a[1..] + b;
      InsertedConcat(a[1..], b);
    }
  }

  lemma Single(op: Op)
    ensures Consumed([op]) == OpConsumed(op) && Produced([op]) == OpProduced(op)
    ensures Inserted([op]) == if op.Insert? then op.chars else []
  {
    assert [op][1..] == [];
  }

  lemma AddOpShape(ops: seq<Op>, op: Op)
    requires OpsOk(ops) && OpOk(op)
    ensures OpsOk(AddOp(ops, op))
    ensures Canonical(ops) ==> Canonical(AddOp(ops, op))
  {
    var r := AddOp(ops, op);
    forall i | 0 <= i < |r| ensures OpOk(r[i]) {
      assert i < |ops| - 1 ==> r[i] == ops[i];
    }
    forall i | 0 < i < |r| && Canonical(ops) ensures !SameKind(r[i - 1], r[i]) {
      assert i < |ops| ==> !SameKind(ops[i - 1], ops[i]);
    }
  }

  lemma AddOpOk(ops: seq<Op>, op: Op)
    requires OpsOk(ops) && OpOk(op)
    ensures OpsOk(AddOp(ops, op))
    ensures Canonical(ops) ==> Canonical(AddOp(ops, op))
    ensures Consumed(AddOp(ops, op)) == Consumed(ops) + OpConsumed(op)
    ensures Produced(AddOp(ops, op)) == Produced(ops) + OpProduced(op)
    ensures Inserted(AddOp(ops, op)) == Inserted(ops) + Inserted([op])
  {
    hide Consumed, Produced, Inserted, OpsOk, Canonical;
    AddOpShape(ops, op);
    Single(op);
    if ops != [] && SameKind(ops[|ops| - 1], op) {
      var front, last := ops[..|ops| - 1], ops[|ops| - 1];
      var merged := MergeOps(last, op);
      assert ops == front + [last];
      Single(last);
      Single(merged);
      ConsumedConcat(front, [last]);
      ConsumedConcat(front, [merged]);
      InsertedConcat(front, [last]);
      InsertedConcat(front, [merged]);
    } else {
      ConsumedConcat(ops, [op]);
      InsertedConcat(ops, [op]);
    }
  }

  lemma AddOpMeaning(text: string, ops: seq<Op>, op: Op)
    requires OpsOk(ops) && OpOk(op) && Consumed(ops) + OpConsumed(op) == |text|
    ensures Consumed(AddOp(ops, op)) == Consumed(ops + [op]) == |text|
    ensures OpsOk(AddOp(ops, op)) && Apply(text, AddOp(ops, op)) == Apply(text, ops + [op])
  {
    hide Consumed, Canonical, Apply;
    AddOpOk(ops, op);
    ConsumedConcat(ops, [op]);
    Single(op);
    if ops != [] && SameKind(ops[|ops| - 1], op) {
      var front, last := ops[..|ops| - 1], ops[|ops| - 1];
      assert ops == front + [last] && ops + [op] == front + [last, op];
      ConsumedConcat(front, [last]);
      Single(last);
      OkReadable(front);
      MergeLast(text, front, last, op);
    }
  }

  lemma MergeLast(text: string, front: seq<Op>, last: Op, op: Op)
    requires OpsOk(front) && OpOk(last) && OpOk(op) && SameKind(last, op)
    requires Consumed(front) + OpConsumed(last) + OpConsumed(op) == |text|
    ensures Readable(front + [last, op]) && Readable(front + [MergeOps(last, op)])
    ensures Consumed(front + [last, op]) == Consumed(front + [MergeOps(last, op)]) == |text|
    ensures Apply(text, front + [last, op]) == Apply(text, front + [MergeOps(last, op)])
  {
    hide Consumed, Apply;
    var pair, merged := [last, op], [MergeOps(last, op)];
    OkReadable(front);
    assert pair == [last] + [op];
    ConsumedConcat([last], [op]);
    Single(last);
    Single(op);
    Single(MergeOps(last, op));
    ApplyConcat(text, front, pair);
    PairMeaning(text[Consumed(front)..], last, op);
    ApplyConcat(text, front, merged);
  }

  lemma ApplySingle(text: string, op: Op)
    requires OpOk(op) && OpConsumed(op) == |text|
    ensures Consumed([op]) == |text| && Apply(text, [op]) == Head(text, op)
  {
    assert [op][1..] == [];
  }

  /** Two operations of one kind mean the same as the merged one. */
  lemma PairMeaning(text: string, a: Op, b: Op)
    requires OpOk(a) && OpOk(b) && SameKind(a, b) && Consumed([a, b]) == |text|
    ensures Consumed([MergeOps(a, b)]) == |text|
    ensures Apply(text, [a, b]) == Apply(text, [MergeOps(a, b)])
  {
    hide Apply, Consumed;
    var n := OpConsumed(a);
    assert [a, b] == [a] + [b];
    ConsumedConcat([a], [b]);
    Single(a);
    Single(b);
    ApplyCons(text, a, [b]);
    ApplySingle(text[n..], b);
    ApplySingle(text, MergeOps(a, b));
    assert a.Retain? ==> text[..n] + text[n..] == text;
  }

  /** Merging one operation in does not change what a longer list means. */
  lemma AddOpThen(text: string, ops: seq<Op>, op: Op, rest: seq<Op>)
    requires OpsOk(ops) && OpOk(op) && OpsOk(rest) && Consumed(ops) + OpConsumed(op) + Consumed(rest) == |text|
    ensures OpsOk(AddOp(ops, op)) && Consumed(AddOp(ops, op)) == Consumed(ops) + OpConsumed(op)
    ensures OpsOk(AddOp(ops, op) + rest) && Consumed(AddOp(ops, op) + rest) == |text|
    ensures OpsOk(ops + [op] + rest) && Consumed(ops + [op] + rest) == |text|
    ensures Apply(text, AddOp(ops, op) + rest) == Apply(text, ops + [op] + rest)
  {
    hide Apply, Consumed, Canonical, AddOp;
    AddOpOk(ops, op);
    OkReadable(ops);
    OkReadable(AddOp(ops, op));
    OkReadable(rest);
    ConsumedConcat(ops, [op]);
    Single(op);
    ApplyConcat(text, AddOp(ops, op), rest);
    ApplyConcat(text, ops + [op], rest);
    AddOpMeaning(text[..Consumed(AddOp(ops, op))], ops, op);
  }

  /** Merging never changes the meaning of a list of operations. */
  lemma {:induction false} AddAllMeaning(text: string, ops: seq<Op>, more: seq<Op>)
    requires OpsOk(ops) && OpsOk(more) && Consumed(ops) + Consumed(more) == |text|
    ensures OpsOk(AddAll(ops, more)) && Consumed(AddAll(ops, more)) == Consumed(ops + more) == |text|
    ensures Apply(text, AddAll(ops, more)) == Apply(text, ops + more)
    decreases |more|
  {
    hide Apply, OpsOk, AddOp, AddAll;
    if more == [] {
      assert ops + more == ops;
      AddAllNothing(ops);
    } else {
      var op, rest := more[0], more[1..];
      assert more == [op] + rest && ops + more == ops + [op] + rest;
      TailOk(more);
      AddOpThen(text, ops, op, rest);
      AddAllCons(ops, op, rest);
      AddAllMeaning(text, AddOp(ops, op), rest);
    }
  }

  lemma AddAllNothing(ops: seq<Op>)
    ensures AddAll(ops, []) == ops
  {
  }

  lemma TailOk(ops: seq<Op>)
    requires OpsOk(ops) && ops != []
    ensures OpOk(ops[0]) && OpsOk(ops[1..])
  {
  }

  lemma OkReadable(ops: seq<Op>)
    requires OpsOk(ops)
    ensures Readable(ops) && Known(ops) && Consumed(ops) >= 0
    ensures forall op | OpOk(op) :: OpsOk(ops + [op]) && Readable(ops + [op])
  {
    ConsumedNat(ops);
    forall op | OpOk(op) ensures OpsOk(ops + [op]) && Readable(ops + [op]) {
    }
  }

  lemma {:induction false} AddAllOk(ops: seq<Op>, more: seq<Op>)
    requires OpsOk(ops) && OpsOk(more)
    ensures OpsOk(AddAll(ops, more))
    ensures Canonical(ops) ==> Canonical(AddAll(ops, more))
    ensures Consumed(AddAll(ops, more)) == Consumed(ops) + Consumed(more)
    ensures Produced(AddAll(ops, more)) == Produced(ops) + Produced(more)
    ensures Inserted(AddAll(ops, more)) == Inserted(ops) + Inserted(more)
    decreases |more|
  {
    hide OpsOk, Canonical, AddOp;
    if more != [] {
      TailOk(more);
      AddOpOk(ops, more[0]);
      AddAllOk(AddOp(ops, more[0]), more[1..]);
      Single(more[0]);
    }
  }

  // ----- identity -----------------------------------------------------------------------------------------------

  function Identity(n: nat): Changeset {
    if n == 0 then Changeset(0, 0, []) else Changeset(n, n, [Retain(n)])
  }

  predicate IsIdentity(c: Changeset) {
    c.oldLen == c.newLen
    && ((c.oldLen == 0 && c.ops == []) || (|c.ops| == 1 && c.ops[0] == Retain(c.oldLen)))
  }

  /** The identity is valid and keeps every text; among valid changesets, the test accepts only it. */
  lemma IdentityKeeps(text: string, c: Changeset)
    ensures ValidOn(Identity(|text|), text) && Text(text, Identity(|text|)) == text
    ensures Valid(c) ==> (IsIdentity(c) <==> c.oldLen >= 0 && c == Identity(c.oldLen))
  {
    var one := [Retain(|text|)];
    assert one[1..] == [];
    if |text| > 0 {
      assert Apply(text, one) == text[..|text|] + Apply(text[|text|..], []);
    }
    if |c.ops| == 1 {
      assert c.ops == [c.ops[0]];
    }
  }

  // ----- the loops ------------------------------------------------------------------------------------------------

  lemma PrefixStep(ops: seq<Op>, i: nat)
    requires i < |ops|
    ensures ops[..i + 1] == ops[..i] + [ops[i]]
    ensures Consumed(ops[..i + 1]) == Consumed(ops[..i]) + OpConsumed(ops[i])
    ensures Produced(ops[..i + 1]) == Produced(ops[..i]) + OpProduced(ops[i])
  {
    assert ops[..i + 1] == ops[..i] + [ops[i]];
    ConsumedConcat(ops[..i], [ops[i]]);
  }

  /** `Validate`: a loop over the operations with two running counters. */
  method Validate(c: Changeset) returns (r: Result<()>)
    ensures r.Ok? <==> Valid(c)
  {
    var sourceConsumed, newLen := 0, 0;
    for i := 0 to |c.ops|
      invariant OpsOk(c.ops[..i])
      invariant sourceConsumed == Consumed(c.ops[..i]) && newLen == Produced(c.ops[..i])
    {
      PrefixStep(c.ops, i);
      match c.ops[i] {
        case Retain(n) =>
          if n <= 0 {
            return Err;
          }
          sourceConsumed := sourceConsumed + n;
          newLen := newLen + n;
        case Insert(s) =>
          if |s| == 0 {
            return Err;
          }
          newLen := newLen + |s|;
        case Delete(n) =>
          if n <= 0 {
            return Err;
          }
          sourceConsumed := sourceConsumed + n;
        case Unknown(_) =>
          return Err;
      }
    }
    assert c.ops[..|c.ops|] == c.ops;
    if sourceConsumed != c.oldLen || newLen != c.newLen {
      return Err;
    }
    return Ok(());
  }

  // ----- applying in one pass ---------------------------------------------------------------------------------

  /** What `ApplyChangeset` comes to: a text, an error, or a panic on a negative length. */
  datatype Scanned = Done(value: string) | Refused | Panic

  function Prepend(s: string, r: Scanned): Scanned {
    if r.Done? then Done(s + r.value) else r
  }

  /** The pass from position `pos` on, for any operations: a negative length moves the position back, and
      retaining from or over a negative stretch panics. */
  function Scan(text: string, ops: seq<Op>, pos: int): Scanned
    requires pos <= |text|
    decreases |ops|
  {
    if ops == [] then if pos == |text| then Done("") else Refused
    else match ops[0]
      case Retain(n) =>
        if pos + n > |text| then Refused
        else if pos < 0 || n < 0 then Panic
        else Prepend(text[pos..pos + n], Scan(text, ops[1..], pos + n))
      case Insert(s) => Prepend(s, Scan(text, ops[1..], pos))
      case Delete(n) => if pos + n > |text| then Refused else Scan(text, ops[1..], pos + n)
      case Unknown(_) => Refused
  }

  /** Without negative lengths the pass never panics, succeeds exactly if the operations are known and read
      the rest of the text, and then gives their meaning. */
  lemma {:induction false} ScanMeaning(text: string, ops: seq<Op>, pos: int)
    requires Readable(ops) && 0 <= pos <= |text|
    ensures !Scan(text, ops, pos).Panic?
    ensures Scan(text, ops, pos).Done? <==> Known(ops) && Consumed(ops) == |text| - pos
    ensures Scan(text, ops, pos).Done? ==> Scan(text, ops, pos).value == Apply(text[pos..], ops)
    decreases |ops|
  {
    if ops != [] {
      var op, rest := ops[0], ops[1..];
      var n := OpConsumed(op);
      assert ops == [op] + rest;
      assert Known(ops) <==> !op.Unknown? && Known(rest);
      ConsumedNat(rest);
      if pos + n <= |text| {
        ScanMeaning(text, rest, pos + n);
        assert text[pos..][n..] == text[pos + n..];
        if Consumed(ops) == |text| - pos {
          assert text[pos..][..n] == text[pos..pos + n];
          ApplyCons(text[pos..], op, rest);
        }
      }
    }
  }

  /** `ApplyChangeset`: one pass over the operations with a position in the source text. */
  method ApplyChangeset(text: string, c: Changeset) returns (r: Scanned)
    ensures r == if c.oldLen != |text| then Refused else if c.newLen < 0 then Panic else Scan(text, c.ops, 0)
    ensures Readable(c.ops) && c.newLen >= 0 ==>
              && !r.Panic?
              && (r.Done? <==> c.oldLen == |text| && Known(c.ops) && Consumed(c.ops) == |text|)
              && (r.Done? ==> r.value == Apply(text, c.ops))
    ensures ValidOn(c, text) ==> r == Done(Text(text, c))
  {
    hide Apply, Consumed, Produced, Readable, Known, OpsOk;
    ScanChangeset(text, c);
    if c.oldLen != |text| {
      return Refused;
    }
    if c.newLen < 0 {
      return Panic;
    }
    var result, srcPos := "", 0;
    assert c.ops[0..] == c.ops;
    for i := 0 to |c.ops|
      invariant srcPos <= |text|
      invariant Scan(text, c.ops, 0) == Prepend(result, Scan(text, c.ops[i..], srcPos))
    {
      assert c.ops[i..][0] == c.ops[i] && c.ops[i..][1..] == c.ops[i + 1..];
      match c.ops[i] {
        case Retain(n) =>
          if srcPos + n > |text| {
            return Refused;
          }
          if srcPos < 0 || n < 0 {
            return Panic;
          }
          PrependTwice(result, text[srcPos..srcPos + n], Scan(text, c.ops[i + 1..], srcPos + n));
          result := result + text[srcPos..srcPos + n];
          srcPos := srcPos + n;
        case Insert(s) =>
          PrependTwice(result, s, Scan(text, c.ops[i + 1..], srcPos));
          result := result + s;
        case Delete(n) =>
          if srcPos + n > |text| {
            return Refused;
          }
          srcPos := srcPos + n;
        case Unknown(_) =>
          return Refused;
      }
    }
    assert c.ops[|c.ops|..] == [];
    return if srcPos != |text| then Refused else Done(result);
  }

  lemma ScanChangeset(text: string, c: Changeset)
    ensures Readable(c.ops) ==>
              && !Scan(text, c.ops, 0).Panic?
              && (Scan(text, c.ops, 0).Done? <==> Known(c.ops) && Consumed(c.ops) == |text|)
              && (Scan(text, c.ops, 0).Done? ==> Scan(text, c.ops, 0).value == Apply(text, c.ops))
    ensures ValidOn(c, text) ==> Readable(c.ops) && Known(c.ops) && c.newLen >= 0
  {
    hide Scan, Apply, Consumed;
    assert text[0..] == text;
    if Readable(c.ops) {
      ScanMeaning(text, c.ops, 0);
    }
    if ValidOn(c, text) {
      OkReadable(c.ops);
      ProducedNat(c.ops);
    }
  }

  lemma PrependTwice(s: string, t: string, r: Scanned)
    ensures Prepend(s, Prepend(t, r)) == Prepend(s + t, r)
  {
    assert r.Done? ==> s + (t + r.value) == s + t + r.value;
  }
}
