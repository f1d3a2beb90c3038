/** `DiffToChangeset`: the changeset from one text to another, by longest common subsequence. */
module Diffing {
  import opened Changesets

  /** The value dp[i][j] of the table: the length of the longest common subsequence of the first `i`
      characters of `src` and the first `j` of `dst`. */
  function Lcs(src: string, dst: string, i: nat, j: nat): nat
    requires i <= |src| && j <= |dst|
    decreases i + j
  {
    if i == 0 || j == 0 then 0
    else if src[i - 1] == dst[j - 1] then Lcs(src, dst, i - 1, j - 1) + 1
    else if Lcs(src, dst, i - 1, j) > Lcs(src, dst, i, j - 1) then Lcs(src, dst, i - 1, j)
    else Lcs(src, dst, i, j - 1)
  }

  /** The backtracking, as one operation per character. */
  function Path(src: string, dst: string, i: nat, j: nat): seq<Op>
    requires i <= |src| && j <= |dst|
    decreases i + j
  {
    if i == 0 && j == 0 then []
    else if i > 0 && j > 0 && src[i - 1] == dst[j - 1] then Path(src, dst, i - 1, j - 1) + [Retain(1)]
    else if j > 0 && (i == 0 || Lcs(src, dst, i, j - 1) >= Lcs(src, dst, i - 1, j)) then
      Path(src, dst, i, j - 1) + [Insert([dst[j - 1]])]
    else Path(src, dst, i - 1, j) + [Delete(1)]
  }

  function Diff(src: string, dst: string): Changeset {
    Changeset(|src|, |dst|, AddAll([], Path(src, dst, |src|, |dst|)))
  }

  /** How many source characters the operations keep. */
  function Retained(ops: seq<Op>): int {
    if ops == [] then 0 else (if ops[0].Retain? then ops[0].len else 0) + Retained(ops[1..])
  }

  lemma {:induction false} RetainedConcat(a: seq<Op>, b: seq<Op>)
    ensures Retained(a + b) == Retained(a) + Retained(b)
  {
    if a == [] {
      assert a + b == b;
    } else {
      assert (a + b)[1..] == a[1..] + b;
      RetainedConcat(a[1..], b);
    }
  }

  lemma RetainedSingle(op: Op)
    ensures Retained([op]) == if op.Retain? then op.len else 0
  {
    assert [op][1..] == [];
  }

  lemma {:induction false} RetainedAddAll(ops: seq<Op>, more: seq<Op>)
    ensures Retained(AddAll(ops, more)) == Retained(ops) + Retained(more)
    decreases |more|
  {
    if more != [] {
      RetainedAddOp(ops, more[0]);
      RetainedAddAll(AddOp(ops, more[0]), more[1..]);
      RetainedSingle(more[0]);
    }
  }

  lemma RetainedAddOp(ops: seq<Op>, op: Op)
    ensures Retained(AddOp(ops, op)) == Retained(ops) + Retained([op])
  {
    hide Retained;
    RetainedSingle(op);
    if ops != [] && SameKind(ops[|ops| - 1], op) {
      var front, last := ops[..|ops| - 1], ops[|ops| - 1];
      assert ops == front + [last];
      RetainedConcat(front, [last]);
      RetainedConcat(front, [MergeOps(last, op)]);
      RetainedSingle(last);
      RetainedSingle(MergeOps(last, op));
    } else {
      RetainedConcat(ops, [op]);
    }
  }

  // ----- correctness ----------------------------------------------------------------------------------------

  lemma Snoc(text: string, ops: seq<Op>, op: Op)
    requires OpsOk(ops) && OpOk(op) && Consumed(ops) + OpConsumed(op) == |text|
    ensures OpsOk(ops + [op]) && Consumed(ops + [op]) == |text| && 0 <= Consumed(ops) <= |text|
    ensures Apply(text, ops + [op]) == Apply(text[..Consumed(ops)], ops) + Head(text[Consumed(ops)..], op)
    ensures Retained(ops + [op]) == Retained(ops) + if op.Retain? then op.len else 0
  {
    Single(op);
    OkReadable(ops);
    ApplyConcat(text, ops, [op]);
    var t := text[Consumed(ops)..];
    ApplyCons(t, op, []);
    assert [op] + [] == [op];
    assert Apply(t[OpConsumed(op)..], []) == [];
    RetainedConcat(ops, [op]);
    RetainedSingle(op);
  }

  /** One step of the backtracking, and what the table says about it. */
  lemma PathCell(src: string, dst: string, i: nat, j: nat)
    requires i <= |src| && j <= |dst|
    ensures i == 0 || j == 0 ==> Lcs(src, dst, i, j) == 0
    ensures i == 0 && j == 0 ==> Path(src, dst, i, j) == [] && OpsOk([])
    ensures i > 0 && j > 0 && src[i - 1] == dst[j - 1] ==>
              && Path(src, dst, i, j) == Path(src, dst, i - 1, j - 1) + [Retain(1)]
              && Lcs(src, dst, i, j) == Lcs(src, dst, i - 1, j - 1) + 1
    ensures (i > 0 || j > 0) && !(i > 0 && j > 0 && src[i - 1] == dst[j - 1]) ==>
              if j > 0 && (i == 0 || Lcs(src, dst, i, j - 1) >= Lcs(src, dst, i - 1, j))
              then && Path(src, dst, i, j) == Path(src, dst, i, j - 1) + [Insert([dst[j - 1]])]
                   && Lcs(src, dst, i, j) == Lcs(src, dst, i, j - 1)
              else && Path(src, dst, i, j) == Path(src, dst, i - 1, j) + [Delete(1)]
                   && Lcs(src, dst, i, j) == Lcs(src, dst, i - 1, j)
  {
  }

  /** The path from `i`, `j` turns the first `i` source characters into the first `j` target ones and keeps as
      many as the table says. */
  lemma {:induction false} PathMeaning(src: string, dst: string, i: nat, j: nat)
    requires i <= |src| && j <= |dst|
    ensures var ops := Path(src, dst, i, j);
            && OpsOk(ops) && Consumed(ops) == i
            && Apply(src[..i], ops) == dst[..j]
            && Retained(ops) == Lcs(src, dst, i, j)
    decreases i + j
  {
    hide Apply, Consumed, Retained, OpsOk, Lcs, Path;
    PathCell(src, dst, i, j);
    if i == 0 && j == 0 {
      Nothing();
    } else if i > 0 && j > 0 && src[i - 1] == dst[j - 1] {
      PathMeaning(src, dst, i - 1, j - 1);
      Snoc(src[..i], Path(src, dst, i - 1, j - 1), Retain(1));
      assert src[..i][..i - 1] == src[..i - 1] && src[..i][i - 1..][..1] == [src[i - 1]];
      assert dst[..j] == dst[..j - 1] + [dst[j - 1]];
    } else if j > 0 && (i == 0 || Lcs(src, dst, i, j - 1) >= Lcs(src, dst, i - 1, j)) {
      PathMeaning(src, dst, i, j - 1);
      Snoc(src[..i], Path(src, dst, i, j - 1), Insert([dst[j - 1]]));
      assert src[..i][..i] == src[..i];
      assert dst[..j] == dst[..j - 1] + [dst[j - 1]];
    } else {
      PathMeaning(src, dst, i - 1, j);
      Snoc(src[..i], Path(src, dst, i - 1, j), Delete(1));
      assert src[..i][..i - 1] == src[..i - 1];
    }
  }

  lemma Nothing()
    ensures Consumed([]) == 0 && Retained([]) == 0 && Apply("", []) == ""
  {
  }

  /** The diff is valid and merged, turns `src` into `dst`, and keeps as many characters as the table
      says. */
  lemma DiffMeaning(src: string, dst: string)
    ensures ValidOn(Diff(src, dst), src) && Canonical(Diff(src, dst).ops)
    ensures Text(src, Diff(src, dst)) == dst
    ensures Retained(Diff(src, dst).ops) == Lcs(src, dst, |src|, |dst|)
  {
    var path := Path(src, dst, |src|, |dst|);
    PathMeaning(src, dst, |src|, |dst|);
    assert src[..|src|] == src && dst[..|dst|] == dst && [] + path == path;
    AddAllOk([], path);
    AddAllMeaning(src, [], path);
    RetainedAddAll([], path);
    ApplyLength(src, Diff(src, dst).ops);
  }

  // ----- optimality -------------------------------------------------------------------------------------------

  /** One more character on either side adds at most one to the table's value, and takes nothing away. */
  lemma {:induction false} LcsSteps(src: string, dst: string, i: nat, j: nat)
    requires i <= |src| && j <= |dst|
    ensures i < |src| ==> Lcs(src, dst, i, j) <= Lcs(src, dst, i + 1, j) <= Lcs(src, dst, i, j) + 1
    ensures j < |dst| ==> Lcs(src, dst, i, j) <= Lcs(src, dst, i, j + 1) <= Lcs(src, dst, i, j) + 1
    decreases i + j
  {
    if i > 0 {
      LcsSteps(src, dst, i - 1, j);
    }
    if j > 0 {
      LcsSteps(src, dst, i, j - 1);
    }
  }

  lemma {:induction false} LcsMonotone(src: string, dst: string, i: nat, j: nat, p: nat, q: nat)
    requires i <= p <= |src| && j <= q <= |dst|
    ensures Lcs(src, dst, i, j) <= Lcs(src, dst, p, q)
    decreases p + q
  {
    if i < p {
      LcsMonotone(src, dst, i, j, p - 1, q);
      LcsSteps(src, dst, p - 1, q);
    } else if j < q {
      LcsMonotone(src, dst, i, j, p, q - 1);
      LcsSteps(src, dst, p, q - 1);
    }
  }

  lemma {:induction false} LcsDiagonal(src: string, dst: string, i: nat, j: nat, k: nat)
    requires i + k <= |src| && j + k <= |dst| && src[i..i + k] == dst[j..j + k]
    ensures Lcs(src, dst, i + k, j + k) == Lcs(src, dst, i, j) + k
  {
    if k > 0 {
      assert src[i..i + k][k - 1] == dst[j..j + k][k - 1];
      assert src[i..i + k - 1] == src[i..i + k][..k - 1];
      assert dst[j..j + k - 1] == dst[j..j + k][..k - 1];
      LcsDiagonal(src, dst, i, j, k - 1);
    }
  }

  /** Operations that turn the rest of `src` into the rest of `dst` keep no more than the table's value
      still grows. */
  lemma {:induction false} RetainedBound(src: string, dst: string, i: nat, j: nat, ops: seq<Op>)
    requires i <= |src| && j <= |dst| && OpsOk(ops)
    requires Consumed(ops) == |src[i..]| && Apply(src[i..], ops) == dst[j..]
    ensures Retained(ops) + Lcs(src, dst, i, j) <= Lcs(src, dst, |src|, |dst|)
    decreases |ops|
  {
    hide Apply, Lcs;
    if ops == [] {
      LcsMonotone(src, dst, i, j, |src|, |dst|);
    } else {
      var op, rest := ops[0], ops[1..];
      OkReadable(rest);
      assert ops == [op] + rest;
      ApplyCons(src[i..], op, rest);
      var p := i + OpConsumed(op);
      assert src[i..][OpConsumed(op)..] == src[p..];
      var head := Head(src[i..], op);
      var q := j + |head|;
      SuffixSplit(dst, j, head, Apply(src[p..], rest));
      RetainedBound(src, dst, p, q, rest);
      if op.Retain? {
        assert src[i..p] == head;
        LcsDiagonal(src, dst, i, j, op.len);
      } else {
        LcsMonotone(src, dst, i, j, p, q);
      }
    }
  }

  lemma SuffixSplit(text: string, j: nat, head: string, tail: string)
    requires j <= |text| && text[j..] == head + tail
    ensures j + |head| <= |text| && text[j..j + |head|] == head && text[j + |head|..] == tail
  {
    assert |text[j..]| == |head| + |tail|;
    assert text[j..j + |head|] == text[j..][..|head|];
    assert text[j + |head|..] == text[j..][|head|..];
  }

  /** No valid changeset from `src` to `dst` retains more than the diff does. */
  lemma DiffIsOptimal(src: string, dst: string, c: Changeset)
    requires ValidOn(c, src) && Text(src, c) == dst
    ensures Retained(c.ops) <= Retained(Diff(src, dst).ops)
  {
    DiffMeaning(src, dst);
    assert src[0..] == src && dst[0..] == dst;
    RetainedBound(src, dst, 0, 0, c.ops);
  }

  // ----- identity ---------------------------------------------------------------------------------------------

  lemma {:induction false} SamePath(text: string, i: nat)
    requires i <= |text|
    ensures AddAll([], Path(text, text, i, i)) == Identity(i).ops
  {
    if i > 0 {
      SamePath(text, i - 1);
      AddAllSnoc([], Path(text, text, i - 1, i - 1), Retain(1));
    }
  }

  lemma {:induction false} AddAllSnoc(ops: seq<Op>, more: seq<Op>, op: Op)
    ensures AddAll(ops, more + [op]) == AddOp(AddAll(ops, more), op)
    decreases |more|
  {
    if more == [] {
      assert more + [op] == [op] && [op][1..] == [];
    } else {
      assert (more + [op])[1..] == more[1..] + [op];
      AddAllSnoc(AddOp(ops, more[0]), more[1..], op);
    }
  }

  // ----- which of the optimal diffs -------------------------------------------------------------------------

  /** No insert stands directly before a delete. */
  predicate DeletesFirst(ops: seq<Op>) {
    forall x | 0 < x < |ops| :: !(ops[x - 1].Insert? && ops[x].Delete?)
  }

  predicate Follows(ops: seq<Op>, op: Op) {
    ops != [] && ops[|ops| - 1].Insert? ==> !op.Delete?
  }

  lemma {:induction false} PathDeletesFirst(src: string, dst: string, i: nat, j: nat)
    requires i <= |src| && j <= |dst|
    ensures DeletesFirst(Path(src, dst, i, j))
    decreases i + j
  {
    hide Path, Lcs;
    PathCell(src, dst, i, j);
    if i > 0 && j > 0 && src[i - 1] == dst[j - 1] {
      PathDeletesFirst(src, dst, i - 1, j - 1);
    } else if j > 0 && (i == 0 || Lcs(src, dst, i, j - 1) >= Lcs(src, dst, i - 1, j)) {
      PathDeletesFirst(src, dst, i, j - 1);
    } else if i > 0 {
      PathDeletesFirst(src, dst, i - 1, j);
      PathCell(src, dst, i - 1, j);
      if j > 0 {
        LcsMonotone(src, dst, i - 1, j - 1, i, j - 1);
      }
    }
  }

  lemma {:induction false} MergedDeletesFirst(ops: seq<Op>, more: seq<Op>)
    requires DeletesFirst(ops) && DeletesFirst(more) && (more != [] ==> Follows(ops, more[0]))
    ensures DeletesFirst(AddAll(ops, more))
    decreases |more|
  {
    if more != [] {
      var next := AddOp(ops, more[0]);
      assert next[|next| - 1].Insert? <==> more[0].Insert?;
      assert |more| > 1 ==> more[1..][0] == more[1];
      MergedDeletesFirst(next, more[1..]);
    }
  }

  /** Of the optimal diffs, the one that deletes before it inserts wherever it does both. */
  lemma DiffDeletesFirst(src: string, dst: string)
    ensures DeletesFirst(Diff(src, dst).ops)
  {
    hide Path;
    PathDeletesFirst(src, dst, |src|, |dst|);
    MergedDeletesFirst([], Path(src, dst, |src|, |dst|));
  }

  /** The last `k` of the first `i` and of the first `j` characters are the same. */
  predicate SameEnd(src: string, dst: string, i: nat, j: nat, k: nat)
    requires k <= i <= |src| && k <= j <= |dst|
    decreases k
  {
    k == 0 || (src[i - 1] == dst[j - 1] && SameEnd(src, dst, i - 1, j - 1, k - 1))
  }

  lemma {:induction false} SlicesSameEnd(src: string, dst: string, i: nat, j: nat, k: nat)
    requires k <= i <= |src| && k <= j <= |dst| && src[i - k..i] == dst[j - k..j]
    ensures SameEnd(src, dst, i, j, k)
    decreases k
  {
    if k > 0 {
      assert src[i - 1] == src[i - k..i][k - 1] && dst[j - 1] == dst[j - k..j][k - 1];
      assert src[i - k..i - 1] == src[i - k..i][..k - 1];
      assert dst[j - k..j - 1] == dst[j - k..j][..k - 1];
      SlicesSameEnd(src, dst, i - 1, j - 1, k - 1);
    }
  }

  lemma {:induction false} SuffixKept(src: string, dst: string, i: nat, j: nat, k: nat)
    requires 1 <= k <= i <= |src| && k <= j <= |dst| && SameEnd(src, dst, i, j, k)
    ensures var ops := AddAll([], Path(src, dst, i, j));
            ops != [] && ops[|ops| - 1].Retain? && ops[|ops| - 1].len >= k
    decreases k
  {
    hide Path, Lcs, AddAll;
    PathCell(src, dst, i, j);
    AddAllSnoc([], Path(src, dst, i - 1, j - 1), Retain(1));
    if k > 1 {
      SuffixKept(src, dst, i - 1, j - 1, k - 1);
    } else {
      PositiveRetains(src, dst, i - 1, j - 1);
    }
  }

  lemma PositiveRetains(src: string, dst: string, i: nat, j: nat)
    requires i <= |src| && j <= |dst|
    ensures OpsOk(AddAll([], Path(src, dst, i, j)))
  {
    PathMeaning(src, dst, i, j);
    AddAllOk([], Path(src, dst, i, j));
  }

  /** What the two texts have in common at the end is kept, and nothing is inserted or deleted in it. */
  lemma DiffKeepsSuffix(src: string, dst: string, k: nat)
    requires 1 <= k <= |src| && k <= |dst| && src[|src| - k..] == dst[|dst| - k..]
    ensures var ops := Diff(src, dst).ops;
            ops != [] && ops[|ops| - 1].Retain? && ops[|ops| - 1].len >= k
  {
    hide Path, AddAll;
    assert src[|src| - k..|src|] == src[|src| - k..] && dst[|dst| - k..|dst|] == dst[|dst| - k..];
    SlicesSameEnd(src, dst, |src|, |dst|, k);
    SuffixKept(src, dst, |src|, |dst|, k);
  }

  /** The diff is the identity exactly when the texts are equal. */
  lemma DiffIdentity(src: string, dst: string)
    ensures IsIdentity(Diff(src, dst)) <==> src == dst
    ensures src == dst ==> Diff(src, dst) == Identity(|src|)
  {
    if src == dst {
      SamePath(src, |src|);
    }
    if IsIdentity(Diff(src, dst)) {
      DiffMeaning(src, dst);
      IdentityKeeps(src, Diff(src, dst));
    }
  }

  // ----- the loops ----------------------------------------------------------------------------------------------

  /** A backtracked character: kept '=', inserted '+' or deleted '-'. */
  datatype Seg = Seg(kind: char, r: char)

  function SegOp(s: Seg): Op {
    if s.kind == '=' then Retain(1) else if s.kind == '+' then Insert([s.r]) else Delete(1)
  }

  function SegOps(segs: seq<Seg>): seq<Op> {
    seq(|segs|, i requires 0 <= i < |segs| => SegOp(segs[i]))
  }

  function Reversed<T>(s: seq<T>): seq<T> {
    seq(|s|, i requires 0 <= i < |s| => s[|s| - 1 - i])
  }

  /** Row `i` of the table holds the values it should. */
  ghost predicate RowDone(dp: array2<int>, src: string, dst: string, i: nat)
    requires dp.Length0 == |src| + 1 && dp.Length1 == |dst| + 1 && i <= |src|
    reads dp
  {
    forall j: nat | j <= |dst| :: dp[i, j] == Lcs(src, dst, i, j)
  }

  lemma LcsCell(src: string, dst: string, i: nat, j: nat)
    requires 1 <= i <= |src| && 1 <= j <= |dst|
    ensures Lcs(src, dst, i, j) == if src[i - 1] == dst[j - 1] then Lcs(src, dst, i - 1, j - 1) + 1
                                   else if Lcs(src, dst, i - 1, j) > Lcs(src, dst, i, j - 1) then Lcs(src, dst, i - 1, j)
                                   else Lcs(src, dst, i, j - 1)
    ensures Lcs(src, dst, i, 0) == 0
  {
  }

  /** The inner loop: row `i` from row `i - 1`. */
  method FillRow(dp: array2<int>, src: string, dst: string, i: nat)
    requires dp.Length0 == |src| + 1 && dp.Length1 == |dst| + 1 && 1 <= i <= |src|
    requires RowDone(dp, src, dst, i - 1) && dp[i, 0] == 0
    modifies dp
    ensures RowDone(dp, src, dst, i)
    ensures forall x: nat, y: nat | x <= |src| && y <= |dst| && x != i :: dp[x, y] == old(dp[x, y])
  {
    hide Lcs;
    var m := |dst|;
    assert Lcs(src, dst, i, 0) == 0 by {
      LcsZero(src, dst, i);
    }
    for j := 1 to m + 1
      invariant forall y: nat | y < j :: dp[i, y] == Lcs(src, dst, i, y)
      invariant forall x: nat, y: nat | x <= |src| && y <= m && x != i :: dp[x, y] == old(dp[x, y])
    {
      LcsCell(src, dst, i, j);
      assert dp[i - 1, j] == Lcs(src, dst, i - 1, j) && dp[i - 1, j - 1] == Lcs(src, dst, i - 1, j - 1);
      if src[i - 1] == dst[j - 1] {
        dp[i, j] := dp[i - 1, j - 1] + 1;
      } else if dp[i - 1, j] > dp[i, j - 1] {
        dp[i, j] := dp[i - 1, j];
      } else {
        dp[i, j] := dp[i, j - 1];
      }
    }
  }

  lemma LcsZero(src: string, dst: string, i: nat)
    requires i <= |src|
    ensures Lcs(src, dst, i, 0) == 0
    ensures forall j: nat | j <= |dst| :: Lcs(src, dst, 0, j) == 0
  {
  }

  /** The table of `DiffToChangeset`, filled row by row. */
  method FillTable(src: string, dst: string) returns (dp: array2<int>)
    ensures fresh(dp) && dp.Length0 == |src| + 1 && dp.Length1 == |dst| + 1
    ensures forall i: nat | i <= |src| :: RowDone(dp, src, dst, i)
  {
    hide Lcs;
    var n, m := |src|, |dst|;
    dp := new int[n + 1, m + 1]((_, _) => 0);
    LcsZero(src, dst, 0);
    for i := 1 to n + 1
      invariant forall x: nat | x < i :: RowDone(dp, src, dst, x)
      invariant forall x: nat | i <= x <= n :: dp[x, 0] == 0
    {
      label L:
      FillRow(dp, src, dst, i);
      forall x: nat | x < i ensures RowDone(dp, src, dst, x) {
        assert old@L(RowDone(dp, src, dst, x));
      }
    }
  }

  /** Swapping ends inwards reverses the segments. */
  method ReverseSegs(input: seq<Seg>) returns (segs: seq<Seg>)
    ensures segs == Reversed(input)
  {
    segs := input;
    var n := |input|;
    var l, r := 0, n - 1;
    while l < r
      invariant 0 <= l <= r + 1 && l + r == n - 1 && |segs| == n
      invariant forall k | l <= k <= r :: segs[k] == input[k]
      invariant forall k | 0 <= k < l || r < k < n :: segs[k] == input[n - 1 - k]
    {
      segs := segs[l := segs[r]][r := segs[l]];
      l, r := l + 1, r - 1;
    }
  }

  /** The walk back through the table, last character first. */
  method Backtrack(dp: array2<int>, src: string, dst: string) returns (segs: seq<Seg>)
    requires dp.Length0 == |src| + 1 && dp.Length1 == |dst| + 1
    requires forall x: nat | x <= |src| :: RowDone(dp, src, dst, x)
    ensures SegOps(Reversed(segs)) == Path(src, dst, |src|, |dst|)
  {
    hide Lcs, Path, SegOps, Reversed;
    segs := [];
    var i, j := |src|, |dst|;
    NoSegs(Path(src, dst, i, j));
    while i > 0 || j > 0
      invariant 0 <= i <= |src| && 0 <= j <= |dst|
      invariant Path(src, dst, i, j) + SegOps(Reversed(segs)) == Path(src, dst, |src|, |dst|)
      decreases i + j
    {
      PathCell(src, dst, i, j);
      assert i > 0 ==> RowDone(dp, src, dst, i) && RowDone(dp, src, dst, i - 1);
      if i > 0 && j > 0 && src[i - 1] == dst[j - 1] {
        PathStep(src, dst, i, j, segs, Seg('=', src[i - 1]), i - 1, j - 1);
        segs := segs + [Seg('=', src[i - 1])];
        i, j := i - 1, j - 1;
      } else if j > 0 && (i == 0 || dp[i, j - 1] >= dp[i - 1, j]) {
        PathStep(src, dst, i, j, segs, Seg('+', dst[j - 1]), i, j - 1);
        segs := segs + [Seg('+', dst[j - 1])];
        j := j - 1;
      } else {
        PathStep(src, dst, i, j, segs, Seg('-', src[i - 1]), i - 1, j);
        segs := segs + [Seg('-', src[i - 1])];
        i := i - 1;
      }
    }
    PathCell(src, dst, 0, 0);
    assert Path(src, dst, 0, 0) + SegOps(Reversed(segs)) == SegOps(Reversed(segs));
  }

  lemma NoSegs(path: seq<Op>)
    ensures path + SegOps(Reversed([])) == path
  {
  }

  /** The last loop: one operation per segment, merged through `addOp`. */
  method MergeSegs(segs: seq<Seg>) returns (ops: seq<Op>)
    ensures ops == AddAll([], SegOps(segs))
  {
    ops := [];
    for k := 0 to |segs|
      invariant ops == AddAll([], SegOps(segs)[..k])
    {
      assert SegOps(segs)[..k + 1] == SegOps(segs)[..k] + [SegOp(segs[k])];
      AddAllSnoc([], SegOps(segs)[..k], SegOp(segs[k]));
      if segs[k].kind == '=' {
        ops := AddOp(ops, Retain(1));
      } else if segs[k].kind == '+' {
        ops := AddOp(ops, Insert([segs[k].r]));
      } else {
        ops := AddOp(ops, Delete(1));
      }
    }
    assert SegOps(segs)[..|segs|] == SegOps(segs);
  }

  /** `DiffToChangeset`: fill the table, walk back through it, reverse, and merge. */
  method DiffToChangeset(src: string, dst: string) returns (c: Changeset)
    ensures c == Diff(src, dst)
  {
    var dp := FillTable(src, dst);
    var back := Backtrack(dp, src, dst);
    var segs := ReverseSegs(back);
    var ops := MergeSegs(segs);
    c := Changeset(|src|, |dst|, ops);
  }

  /** One backward step moves the last operation of the path to the front of what was collected. */
  lemma PathStep(src: string, dst: string, i: nat, j: nat, before: seq<Seg>, seg: Seg, p: nat, q: nat)
    requires i <= |src| && j <= |dst| && p <= i && q <= j
    requires Path(src, dst, i, j) == Path(src, dst, p, q) + [SegOp(seg)]
    ensures Path(src, dst, i, j) + SegOps(Reversed(before)) == Path(src, dst, p, q) + SegOps(Reversed(before + [seg]))
  {
    hide Path, SegOps, Reversed;
    ReversedSnoc(before, seg);
  }

  lemma ReversedSnoc(before: seq<Seg>, seg: Seg)
    ensures SegOps(Reversed(before + [seg])) == [SegOp(seg)] + SegOps(Reversed(before))
  {
    var after := before + [seg];
    assert Reversed(after) == [seg] + Reversed(before);
  }
}
