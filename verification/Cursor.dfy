/** The cursor of the two-cursor loops: a position in a list of operations and an offset into the
    operation there.  `Remaining` is the list still to be walked. */
module Cursors {
  import opened Changesets
  import opened Following

  predicate InRange(ops: seq<Op>, pos: nat, off: nat) {
    OpsOk(ops) && pos <= |ops| && if pos < |ops| then off < OpLen(ops[pos]) else off == 0
  }

  /** The list from operation `pos`, character `off` on. */
  function From(ops: seq<Op>, pos: nat, off: nat): (r: seq<Op>)
    requires InRange(ops, pos, off)
    ensures OpsOk(r)
  {
    if pos == |ops| then [] else [Shorten(ops[pos], off)] + ops[pos + 1..]
  }

  /** One turn of the `consume` loop. */
  lemma ConsumeStep(ops: seq<Op>, pos: nat, off: nat, n: int)
    requires InRange(ops, pos, off) && pos < |ops| && n > 0
    ensures var rem := OpLen(ops[pos]) - off;
            if n >= rem then
              InRange(ops, pos + 1, 0) && Drop(From(ops, pos, off), n) == Drop(From(ops, pos + 1, 0), n - rem)
            else
              InRange(ops, pos, off + n) && Drop(From(ops, pos, off), n) == From(ops, pos, off + n)
  {
    hide OpsOk;
    var before := From(ops, pos, off);
    assert before[0] == Shorten(ops[pos], off) && before[1..] == ops[pos + 1..];
    NextOp(ops, pos);
    DropFirst(before, n);
    assert n < OpLen(ops[pos]) - off ==> Shorten(Shorten(ops[pos], off), n) == Shorten(ops[pos], off + n);
  }

  lemma NextOp(ops: seq<Op>, pos: nat)
    requires OpsOk(ops) && pos < |ops|
    ensures OpOk(ops[pos]) && InRange(ops, pos + 1, 0) && From(ops, pos + 1, 0) == ops[pos + 1..]
  {
    if pos + 1 < |ops| {
      var op := ops[pos + 1];
      assert OpOk(op);
      assert op.Insert? ==> op.chars[0..] == op.chars;
      assert Shorten(op, 0) == op;
    }
  }

  lemma DropFirst(ops: seq<Op>, n: int)
    requires OpsOk(ops) && ops != [] && n > 0
    ensures OpsOk(ops[1..])
    ensures n >= OpLen(ops[0]) ==> Drop(ops, n) == Drop(ops[1..], n - OpLen(ops[0]))
    ensures n < OpLen(ops[0]) ==> Drop(ops, n) == [Shorten(ops[0], n)] + ops[1..]
  {
  }

  lemma ConsumeEnd(ops: seq<Op>, pos: nat, off: nat, n: int)
    requires InRange(ops, pos, off)
    ensures n <= 0 || pos == |ops| ==> Drop(From(ops, pos, off), n) == From(ops, pos, off)
  {
  }

  class OpSlice {
    const ops: seq<Op>
    var pos: nat
    var off: nat

    ghost predicate Valid()
      reads this
    {
      InRange(ops, pos, off)
    }

    ghost function Remaining(): (r: seq<Op>)
      requires Valid()
      reads this
      ensures OpsOk(r)
    {
      From(ops, pos, off)
    }

    constructor (list: seq<Op>)
      requires OpsOk(list)
      ensures Valid() && Remaining() == list && fresh(this)
    {
      ops := list;
      pos, off := 0, 0;
      new;
      if list != [] {
        assert Shorten(list[0], 0) == list[0];
      }
    }

    /** `peek`: the rest of the current operation, if there is one. */
    function Peek(): (r: Result<Op>)
      requires Valid()
      reads this
      ensures r.Ok? <==> Remaining() != []
      ensures r.Ok? ==> r.value == Remaining()[0] && OpOk(r.value)
    {
      if pos >= |ops| then Err else Ok(Shorten(ops[pos], off))
    }

    /** `consume`: skip `count` characters, finishing as many operations as that takes. */
    method Consume(count: int)
      requires Valid()
      modifies this
      ensures Valid() && Remaining() == Drop(old(Remaining()), count)
    {
      hide Drop, From, OpsOk;
      var n := count;
      while n > 0 && pos < |ops|
        invariant Valid()
        invariant Drop(Remaining(), n) == Drop(old(Remaining()), count)
        decreases |ops| - pos, n
      {
        ConsumeStep(ops, pos, off, n);
        var rem := OpLen(ops[pos]) - off;
        if n >= rem {
          n := n - rem;
          pos := pos + 1;
          off := 0;
        } else {
          off := off + n;
          n := 0;
        }
        ConsumeEnd(ops, pos, off, n);
      }
      ConsumeEnd(ops, pos, off, n);
    }
  }

  // ----- follow ---------------------------------------------------------------------------------------------

  /** `addOp`; `rest` is what the walk will still emit. */
  method Add(ops: seq<Op>, op: Op, ghost rest: seq<Op>) returns (r: seq<Op>)
    requires OpsOk(ops) && OpOk(op)
    ensures r == AddOp(ops, op) && OpsOk(r) && Produced(r) == Produced(ops) + OpProduced(op)
    ensures AddAll(r, rest) == AddAll(ops, [op] + rest)
  {
    AddOpOk(ops, op);
    AddAllCons(ops, op, rest);
    r := AddOp(ops, op);
  }

  lemma AddNothing(ops: seq<Op>)
    ensures AddAll(ops, []) == ops
    ensures OpsOk([]) && Produced([]) == 0
  {
  }

  lemma TakeFirst(x: seq<Op>)
    requires OpsOk(x) && x != []
    ensures Drop(x, OpLen(x[0])) == x[1..] && 0 <= Size(x[1..]) < Size(x)
  {
    DropWhole(x);
    SizeNat(x[1..]);
  }

  lemma TakePart(x: seq<Op>, n: int)
    requires OpsOk(x) && x != [] && 0 < n <= OpLen(x[0])
    ensures OpsOk(Drop(x, n)) && 0 <= Size(Drop(x, n)) < Size(x)
  {
    DropHead(x, n);
    SizeNat(Drop(x, n));
  }

  /** One step of the walk. */
  lemma FollowStep(x: seq<Op>, y: seq<Op>)
    requires OpsOk(x) && OpsOk(y)
    ensures First(x, y) ==> OpsOk(x[1..]) && FollowOps(x, y) == [Retain(|x[0].chars|)] + FollowOps(x[1..], y)
    ensures !First(x, y) && Inserting(y) ==> OpsOk(y[1..]) && FollowOps(x, y) == [y[0]] + FollowOps(x, y[1..])
    ensures !Inserting(x) && !Inserting(y) && (x == [] || y == []) ==> FollowOps(x, y) == []
    ensures !Inserting(x) && !Inserting(y) && x != [] && y != [] ==>
              var n := Overlap(x, y);
              && OpsOk(Drop(x, n)) && OpsOk(Drop(y, n))
              && FollowOps(x, y) == Emit(x[0], y[0], n) + FollowOps(Drop(x, n), Drop(y, n))
              && (x[0].Delete? ==> FollowOps(x, y) == FollowOps(Drop(x, n), Drop(y, n)))
  {
    SizeNat(x);
    SizeNat(y);
    if !Inserting(x) && !Inserting(y) && x != [] && y != [] {
      DropHead(x, Overlap(x, y));
      DropHead(y, Overlap(x, y));
    }
  }

  /** `Follow`: walk both lists, emitting through `addOp`, until neither can go on. */
  method Follow(a: Changeset, b: Changeset) returns (result: Changeset)
    requires OpsOk(a.ops) && OpsOk(b.ops)
    ensures result == Followed(a, b)
  {
    hide FollowOps, AddOp, AddAll, Drop, Size, OpsOk, Produced, Leq;
    AddNothing([]);
    var ops: seq<Op>, newLen := [], 0;
    var aSlice := new OpSlice(a.ops);
    var bSlice := new OpSlice(b.ops);
    while true
      invariant aSlice.Valid() && bSlice.Valid() && aSlice != bSlice && fresh(aSlice) && fresh(bSlice)
      invariant OpsOk(ops) && newLen == Produced(ops)
      invariant AddAll(ops, FollowOps(aSlice.Remaining(), bSlice.Remaining())) == AddAll([], FollowOps(a.ops, b.ops))
      decreases Size(aSlice.Remaining()) + Size(bSlice.Remaining())
    {
      SizeNat(aSlice.Remaining());
      SizeNat(bSlice.Remaining());
      ghost var x, y := aSlice.Remaining(), bSlice.Remaining();
      var aOp, bOp := aSlice.Peek(), bSlice.Peek();
      FollowStep(x, y);
      AddNothing(ops);
      if aOp.Err? && bOp.Err? {
        break;
      }
      if aOp.Ok? && aOp.value.Insert? && bOp.Ok? && bOp.value.Insert? {
        if Leq(aOp.value.chars, bOp.value.chars) {
          ops := Add(ops, Retain(|aOp.value.chars|), FollowOps(x[1..], y));
          newLen := newLen + |aOp.value.chars|;
          TakeFirst(x);
          aSlice.Consume(|aOp.value.chars|);
        } else {
          ops := Add(ops, Insert(bOp.value.chars), FollowOps(x, y[1..]));
          newLen := newLen + |bOp.value.chars|;
          TakeFirst(y);
          bSlice.Consume(|bOp.value.chars|);
        }
        continue;
      }
      if aOp.Ok? && aOp.value.Insert? {
        ops := Add(ops, Retain(|aOp.value.chars|), FollowOps(x[1..], y));
        newLen := newLen + |aOp.value.chars|;
        TakeFirst(x);
        aSlice.Consume(|aOp.value.chars|);
        continue;
      }
      if bOp.Ok? && bOp.value.Insert? {
        ops := Add(ops, Insert(bOp.value.chars), FollowOps(x, y[1..]));
        newLen := newLen + |bOp.value.chars|;
        TakeFirst(y);
        bSlice.Consume(|bOp.value.chars|);
        continue;
      }
      if aOp.Err? || bOp.Err? {
        break;
      }
      var n := OpLen(aOp.value);
      if OpLen(bOp.value) < n {
        n := OpLen(bOp.value);
      }
      TakePart(x, n);
      TakePart(y, n);
      if aOp.value.Retain? && bOp.value.Retain? {
        ops := Add(ops, Retain(n), FollowOps(Drop(x, n), Drop(y, n)));
        newLen := newLen + n;
      } else if aOp.value.Retain? && bOp.value.Delete? {
        ops := Add(ops, Delete(n), FollowOps(Drop(x, n), Drop(y, n)));
      }
      aSlice.Consume(n);
      bSlice.Consume(n);
    }
    result := Changeset(a.newLen, newLen, ops);
  }
}
