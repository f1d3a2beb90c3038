/** The apply loop beside the handlers of one server: the channel of capacity one, the coalescing
    `notifyCommit`, and the unlocked reads of the log while the handlers go on changing it.

    One goroutine applies; the handlers, which take turns under the lock, are the other party.  Every
    place where the two can interleave is a step of its own: raising the commit index and notifying,
    taking the token and reading the commit index under the lock, handing an entry to the state
    machine and recording it. */
module ApplyLoops {
  import opened Raft
  import opened Cluster
  import opened RaftInvariant
  import opened RaftLate
  import opened RaftSafety

  /** Where the loop stands.  `Applying(target, handed)`: it read `target` as the commit index, and
      `handed` says that the entry behind `lastApplied` is with the state machine already. */
  datatype Phase = Parked | Woken | Applying(target: nat, handed: bool)

  /** `token`: the channel is full.  `owing`: a handler, still under the lock, has raised the commit
      index and not yet notified.  `fsm` is everything the state machine was handed. */
  datatype Loop = Loop(n: Node, token: bool, owing: bool, phase: Phase, fsm: seq<Entry>)

  datatype Move =
    | Handle(n': Node, notify: bool)
    | Notify
    | Wake
    | Read
    | Hand
    | Record
    | Park

  /** What a handler may do to the server while the loop runs: it leaves the bookkeeping of the loop and
      the committed entries alone, and the commit index does not fall. */
  predicate Handled(n: Node, n': Node) {
    && n'.lastApplied == n.lastApplied && n'.applied == n.applied
    && n.commitIndex <= n'.commitIndex <= |n'.log|
    && Agree(n.log, n'.log, n.commitIndex)
  }

  predicate LoopStep(l: Loop, l': Loop, m: Move) {
    match m
    case Handle(n', notify) =>
      && !l.owing && Handled(l.n, n') && (n'.commitIndex > l.n.commitIndex ==> notify)
      && l' == l.(n := n', owing := notify)
    case Notify =>
      l.owing && l' == l.(owing := false, token := true)
    case Wake =>
      l.phase == Parked && l.token && l' == l.(phase := Woken, token := false)
    case Read =>
      l.phase == Woken && !l.owing && l' == l.(phase := Applying(l.n.commitIndex, false))
    case Hand =>
      && l.phase.Applying? && !l.phase.handed && l.n.lastApplied < l.phase.target && l.n.lastApplied < |l.n.log|
      && l' == l.(fsm := l.fsm + [l.n.log[l.n.lastApplied]], phase := l.phase.(handed := true))
    case Record =>
      && l.phase.Applying? && l.phase.handed && !l.owing && l.n.lastApplied < |l.n.log|
      && l' == l.(n := ApplyNext(l.n), phase := l.phase.(handed := false))
    case Park =>
      l.phase.Applying? && !l.phase.handed && l.n.lastApplied >= l.phase.target && l' == l.(phase := Parked)
  }

  function Fresh(n: Node): Loop {
    Loop(n, false, false, Parked, [])
  }

  /** A life of the server, from a start to its next crash. */
  datatype Life = Life(loops: seq<Loop>, moves: seq<Move>)

  predicate IsLife(f: Life) {
    && |f.loops| == |f.moves| + 1
    && (var n := f.loops[0].n; f.loops[0] == Fresh(Restart(n.currentTerm, n.votedFor, n.log)))
    && forall k | 0 <= k < |f.moves| :: LoopStep(f.loops[k], f.loops[k + 1], f.moves[k])
  }

  /** How many entries the state machine has. */
  function Given(l: Loop): nat {
    l.n.lastApplied + if l.phase.Applying? && l.phase.handed then 1 else 0
  }

  /** An unread commit index always leaves a trace: a notification owed or pending, or a loop that has
      been woken and will read it. */
  predicate LoopOk(l: Loop) {
    && l.n.lastApplied <= l.n.commitIndex <= |l.n.log|
    && l.n.applied == l.n.log[..l.n.lastApplied]
    && Given(l) <= l.n.commitIndex && l.fsm == l.n.log[..Given(l)]
    && match l.phase
       case Parked => l.n.lastApplied < l.n.commitIndex ==> l.token || l.owing
       case Woken => true
       case Applying(target, handed) =>
         && Given(l) <= target <= l.n.commitIndex
         && (target < l.n.commitIndex ==> l.token || l.owing)
  }

  lemma MoveKeeps(l: Loop, l': Loop, m: Move)
    requires LoopOk(l) && LoopStep(l, l', m)
    ensures LoopOk(l')
    ensures l.n.commitIndex <= l'.n.commitIndex && l.fsm <= l'.fsm
  {
    match m {
      case Handle(n', _) =>
        assert n'.log[..l.n.commitIndex][..Given(l)] == n'.log[..Given(l)];
        assert n'.log[..l.n.commitIndex][..l.n.lastApplied] == n'.log[..l.n.lastApplied];
      case _ =>
    }
  }

  lemma {:induction false} LifeOk(f: Life, k: nat)
    requires IsLife(f) && k < |f.loops|
    ensures LoopOk(f.loops[k])
  {
    hide LoopStep;
    if k > 0 {
      LifeOk(f, k - 1);
      MoveKeeps(f.loops[k - 1], f.loops[k], f.moves[k - 1]);
    }
  }

  lemma {:induction false} LifeGrows(f: Life, j: nat, k: nat)
    requires IsLife(f) && j <= k < |f.loops|
    ensures f.loops[j].n.commitIndex <= f.loops[k].n.commitIndex && f.loops[j].fsm <= f.loops[k].fsm
    decreases k
  {
    hide LoopStep, LoopOk, Fresh;
    if j < k {
      LifeGrows(f, j, k - 1);
      LifeOk(f, k - 1);
      MoveKeeps(f.loops[k - 1], f.loops[k], f.moves[k - 1]);
    }
  }

  /** Committed indices are handed over in order, none skipped and none repeated, at every moment. */
  lemma AppliedInOrder(f: Life, k: nat)
    requires IsLife(f) && k < |f.loops|
    ensures |f.loops[k].fsm| <= f.loops[k].n.commitIndex <= |f.loops[k].n.log|
    ensures f.loops[k].fsm == f.loops[k].n.log[..|f.loops[k].fsm|]
  {
    LifeOk(f, k);
  }

  /** Coalesced notifications lose no commit: a loop that is parked with no token pending has handed
      over everything committed at any earlier moment of its life. */
  lemma NoCommitIsLost(f: Life, j: nat, k: nat)
    requires IsLife(f) && j <= k < |f.loops|
    requires f.loops[k].phase == Parked && !f.loops[k].token && !f.loops[k].owing
    ensures f.loops[k].n.lastApplied == f.loops[k].n.commitIndex == |f.loops[k].fsm|
    ensures f.loops[j].n.commitIndex <= |f.loops[k].fsm|
  {
    LifeOk(f, k);
    LifeGrows(f, j, k);
  }

  // ----- catching up -----------------------------------------------------------------------------------

  /** An upper bound on the steps the loop still takes if no handler runs. */
  function Work(l: Loop): nat
    requires LoopOk(l)
  {
    (if l.owing then 4 else 0)
    + (if l.token then 3 else 0)
    + 2 * (l.n.commitIndex - l.n.lastApplied)
    + (match l.phase
       case Parked => 0
       case Woken => 2
       case Applying(_, handed) => if handed then 0 else 1)
  }

  /** Handlers aside, every step is work done. */
  lemma WorkShrinks(l: Loop, l': Loop, m: Move)
    requires LoopOk(l) && LoopStep(l, l', m) && !m.Handle?
    ensures LoopOk(l') && Work(l') < Work(l)
  {
    MoveKeeps(l, l', m);
  }

  /** While there is work, a step other than a handler's can be taken. */
  lemma NeverStuck(l: Loop) returns (m: Move, l': Loop)
    requires LoopOk(l) && Work(l) > 0
    ensures LoopStep(l, l', m) && !m.Handle?
  {
    if l.owing {
      m, l' := Notify, l.(owing := false, token := true);
    } else {
      match l.phase {
        case Parked =>
          m, l' := Wake, l.(phase := Woken, token := false);
        case Woken =>
          m, l' := Read, l.(phase := Applying(l.n.commitIndex, false));
        case Applying(target, handed) =>
          if handed {
            m, l' := Record, l.(n := ApplyNext(l.n), phase := l.phase.(handed := false));
          } else if l.n.lastApplied < target {
            m, l' := Hand, l.(fsm := l.fsm + [l.n.log[l.n.lastApplied]], phase := l.phase.(handed := true));
          } else {
            m, l' := Park, l.(phase := Parked);
          }
      }
    }
  }

  predicate Undisturbed(f: Life, j: nat, k: nat) {
    forall i | j <= i < k && i < |f.moves| :: !f.moves[i].Handle?
  }

  lemma {:induction false} UndisturbedWork(f: Life, j: nat, k: nat)
    requires IsLife(f) && j <= k < |f.loops| && Undisturbed(f, j, k)
    ensures LoopOk(f.loops[j]) && LoopOk(f.loops[k])
    ensures Work(f.loops[k]) + (k - j) <= Work(f.loops[j])
    ensures f.loops[k].n.commitIndex == f.loops[j].n.commitIndex
    decreases k
  {
    hide LoopOk;
    LifeOk(f, j);
    LifeOk(f, k);
    if j < k {
      UndisturbedWork(f, j, k - 1);
      WorkShrinks(f.loops[k - 1], f.loops[k], f.moves[k - 1]);
    }
  }

  /** Once the handlers are quiet the loop takes at most `Work` steps, and a loop that has no step left
      has handed over exactly the committed entries. */
  lemma CatchesUp(f: Life, j: nat, k: nat)
    requires IsLife(f) && j <= k < |f.loops| && Undisturbed(f, j, k)
    ensures LoopOk(f.loops[j]) && k - j <= Work(f.loops[j])
    ensures (forall m, l' :: LoopStep(f.loops[k], l', m) ==> m.Handle?) ==>
              var n := f.loops[k].n;
              n.commitIndex == f.loops[j].n.commitIndex <= |n.log| && f.loops[k].fsm == n.log[..n.commitIndex]
  {
    UndisturbedWork(f, j, k);
    if forall m, l' :: LoopStep(f.loops[k], l', m) ==> m.Handle? {
      if Work(f.loops[k]) > 0 {
        var m, l' := NeverStuck(f.loops[k]);
      }
    }
  }

  // ----- the handlers of the cluster -------------------------------------------------------------------

  predicate Crashes(step: Step, a: Id) {
    step.i == a && (step.Crash? || step.CrashCleared? || step.CrashCut?)
  }

  /** No handler touches the loop's bookkeeping, and the commit index only moves up, or to the end of the
      log. */
  lemma BookkeepingKept(s: State, s': State, step: Step, a: Id)
    requires Next(s, s', step) && a in s.nodes && !Crashes(step, a) && step != Apply(a)
    ensures a in s'.nodes
    ensures var n, n' := s.nodes[a], s'.nodes[a];
            && n'.lastApplied == n.lastApplied && n'.applied == n.applied
            && (n'.commitIndex >= n.commitIndex || n'.commitIndex == |n'.log|)
  {
    hide MergeLog, Consistent, Grants, IsMajorityIndex, Holders, BackUp, IsQuorum, RecordCommit, Agree;
  }

  /** Between crashes, whatever happens in the cluster is to a server's apply loop what a handler may
      do, or is the loop's own recording of an entry. */
  lemma ClusterStepIsHandled(s: State, s': State, step: Step, a: Id)
    requires Safe(s) && Next(s, s', step) && a in s.nodes && !Crashes(step, a)
    ensures a in s'.nodes
    ensures if step == Apply(a)
            then s.nodes[a].lastApplied < |s.nodes[a].log| && s'.nodes[a] == ApplyNext(s.nodes[a])
            else Handled(s.nodes[a], s'.nodes[a])
  {
    hide Safe, Inv;
    if step != Apply(a) {
      hide Next;
      SafeInv(s);
      BookkeepingKept(s, s', step, a);
      CommittedNeverCutIn(s, s', step, a);
      NextKeepsInv(s, s', step);
      SafeInv(s');
      AppliedIsCommittedIn(s', a);
    }
  }

  // ----- the lives of a server in a run ------------------------------------------------------------------

  /** Server `a` starts in state `j` of the run, at the beginning or after a crash, and does not crash up
      to state `k`. */
  ghost predicate AliveFrom(r: Run, a: Id, j: nat, k: nat) {
    && j <= k < |r.states| == |r.steps| + 1
    && (j == 0 || Crashes(r.steps[j - 1], a))
    && (forall i | j <= i < k :: !Crashes(r.steps[i], a))
    && (forall i | j <= i <= k :: a in r.states[i].nodes)
  }

  /** `f` is the life of server `a` between states `j` and `k` of the run, at the finer grain of the loop:
      after `m` moves the server is as in state `at[m]` of the run. */
  ghost predicate LifeOf(f: Life, at: seq<nat>, r: Run, a: Id, j: nat, k: nat) {
    && IsLife(f) && AliveFrom(r, a, j, k)
    && |at| == |f.loops| > 0 && at[0] == j && at[|at| - 1] == k
    && (forall m | 0 <= m < |at| :: j <= at[m] <= k && f.loops[m].n == r.states[at[m]].nodes[a])
    && (forall m | 0 < m < |at| :: at[m - 1] <= at[m] <= at[m - 1] + 1)
  }

  lemma StepInRun(r: Run, a: Id, j: nat, k: nat, i: nat)
    requires IsRun(r) && AliveFrom(r, a, j, k) && j <= i < k
    ensures if r.steps[i] == Apply(a)
            then && r.states[i].nodes[a].lastApplied < |r.states[i].nodes[a].log|
                 && r.states[i].nodes[a].lastApplied < r.states[i].nodes[a].commitIndex
                 && r.states[i + 1].nodes[a] == ApplyNext(r.states[i].nodes[a])
            else Handled(r.states[i].nodes[a], r.states[i + 1].nodes[a])
  {
    hide Safe, Inv, Init;
    RunInv(r, i);
    ClusterStepIsHandled(r.states[i], r.states[i + 1], r.steps[i], a);
    assert Next(r.states[i], r.states[i + 1], r.steps[i]);
  }

  /** While a server is up its commit index does not fall. */
  lemma {:induction false} CommitNeverFalls(r: Run, a: Id, j: nat, k: nat, i: nat, m: nat)
    requires IsRun(r) && AliveFrom(r, a, j, k) && j <= i <= m <= k
    ensures r.states[i].nodes[a].commitIndex <= r.states[m].nodes[a].commitIndex
    decreases m
  {
    hide IsRun;
    if i < m {
      CommitNeverFalls(r, a, j, k, i, m - 1);
      StepInRun(r, a, j, k, m - 1);
    }
  }

  /** `NoCommitIsLost` for a server of a run: whenever its loop is parked with no token pending and none
      owed, it has handed over exactly the committed entries, and with them everything the server had
      committed at any earlier state of the run since it started. */
  lemma NoCommitIsLostInRun(r: Run, a: Id, j: nat, k: nat, f: Life, at: seq<nat>, m: nat, i: nat)
    requires IsRun(r) && LifeOf(f, at, r, a, j, k) && m < |f.loops| && j <= i <= at[m]
    requires f.loops[m].phase == Parked && !f.loops[m].token && !f.loops[m].owing
    ensures a in r.states[i].nodes && a in r.states[at[m]].nodes
    ensures var n := r.states[at[m]].nodes[a];
            && n.commitIndex <= |n.log| && f.loops[m].fsm == n.log[..n.commitIndex] && n.lastApplied == n.commitIndex
            && r.states[i].nodes[a].commitIndex <= |f.loops[m].fsm|
  {
    hide IsRun, IsLife;
    AppliedInOrder(f, m);
    NoCommitIsLost(f, m, m);
    CommitNeverFalls(r, a, j, k, i, at[m]);
  }

  /** `AppliedInOrder` for a server of a run: at every moment the state machine has a prefix of the
      committed entries. */
  lemma AppliedInOrderInRun(r: Run, a: Id, j: nat, k: nat, f: Life, at: seq<nat>, m: nat)
    requires IsRun(r) && LifeOf(f, at, r, a, j, k) && m < |f.loops|
    ensures a in r.states[at[m]].nodes && r.states[at[m]].nodes[a].commitIndex <= |r.states[at[m]].nodes[a].log|
    ensures f.loops[m].fsm <= r.states[at[m]].nodes[a].log[..r.states[at[m]].nodes[a].commitIndex]
  {
    hide IsRun, IsLife;
    AppliedInOrder(f, m);
  }

  // ----- every run has its lives ---------------------------------------------------------------------------

  lemma AddMove(f: Life, m: Move, l': Loop) returns (f': Life)
    requires IsLife(f) && LoopStep(f.loops[|f.moves|], l', m)
    ensures IsLife(f') && f'.loops == f.loops + [l'] && f'.moves == f.moves + [m]
  {
    hide LoopStep;
    f' := Life(f.loops + [l'], f.moves + [m]);
  }

  /** The loop between two steps of the run: nothing owed, and parked unless there is an entry to hand. */
  predicate Ready(l: Loop) {
    !l.owing && (l.phase == Parked || (l.phase.Applying? && !l.phase.handed && l.n.lastApplied < l.phase.target))
  }

  ghost predicate ReadyLife(f: Life, at: seq<nat>, r: Run, a: Id, j: nat, k: nat) {
    LifeOf(f, at, r, a, j, k) && Ready(f.loops[|f.loops| - 1])
  }

  lemma Prolong(f: Life, at: seq<nat>, r: Run, a: Id, j: nat, k: nat, i: nat, m: Move, l': Loop)
    returns (f': Life, at': seq<nat>)
    requires LifeOf(f, at, r, a, j, k) && AliveFrom(r, a, j, i) && k <= i <= k + 1
    requires LoopStep(f.loops[|f.loops| - 1], l', m) && l'.n == r.states[i].nodes[a]
    ensures LifeOf(f', at', r, a, j, i) && f'.loops[|f'.loops| - 1] == l'
  {
    hide LoopStep, IsLife;
    LifeLength(f);
    f' := AddMove(f, m, l');
    at' := at + [i];
  }

  lemma LifeLength(f: Life)
    requires IsLife(f)
    ensures |f.loops| == |f.moves| + 1
  {
  }

  lemma ProlongWake(f: Life, at: seq<nat>, r: Run, a: Id, j: nat, k: nat) returns (f': Life, at': seq<nat>)
    requires LifeOf(f, at, r, a, j, k)
    requires var l := f.loops[|f.loops| - 1]; l.phase == Parked && l.token && !l.owing
    ensures LifeOf(f', at', r, a, j, k)
    ensures var l := f.loops[|f.loops| - 1];
            f'.loops[|f'.loops| - 1] == l.(token := false, phase := Applying(l.n.commitIndex, false))
  {
    hide IsLife;
    var l := f.loops[|f.loops| - 1];
    f', at' := Prolong(f, at, r, a, j, k, k, Wake, l.(phase := Woken, token := false));
    f', at' := Prolong(f', at', r, a, j, k, k, Read, l.(token := false, phase := Applying(l.n.commitIndex, false)));
  }

  lemma ProlongEntry(f: Life, at: seq<nat>, r: Run, a: Id, j: nat, k: nat) returns (f': Life, at': seq<nat>)
    requires LifeOf(f, at, r, a, j, k) && AliveFrom(r, a, j, k + 1)
    requires var l := f.loops[|f.loops| - 1];
             && l.phase.Applying? && !l.phase.handed && !l.owing && l.n.lastApplied < l.phase.target
             && l.n.lastApplied < |l.n.log| && r.states[k + 1].nodes[a] == ApplyNext(l.n)
    ensures LifeOf(f', at', r, a, j, k + 1)
    ensures var l, l' := f.loops[|f.loops| - 1], f'.loops[|f'.loops| - 1];
            l'.phase == l.phase && !l'.owing && l'.n == ApplyNext(l.n)
  {
    hide IsLife;
    var l := f.loops[|f.loops| - 1];
    var l1 := l.(fsm := l.fsm + [l.n.log[l.n.lastApplied]], phase := l.phase.(handed := true));
    f', at' := Prolong(f, at, r, a, j, k, k, Hand, l1);
    f', at' := Prolong(f', at', r, a, j, k, k + 1, Record, l1.(n := ApplyNext(l.n), phase := l.phase));
  }

  /** The loop's moves for one applied entry: wake and read first if it is parked, park if it was the last. */
  lemma ProlongApply(f: Life, at: seq<nat>, r: Run, a: Id, j: nat, k: nat) returns (f': Life, at': seq<nat>)
    requires ReadyLife(f, at, r, a, j, k) && AliveFrom(r, a, j, k + 1)
    requires var n := r.states[k].nodes[a];
             n.lastApplied < n.commitIndex && n.lastApplied < |n.log| && r.states[k + 1].nodes[a] == ApplyNext(n)
    ensures ReadyLife(f', at', r, a, j, k + 1)
  {
    hide IsLife;
    LifeOk(f, |f.loops| - 1);
    f', at' := f, at;
    if f.loops[|f.loops| - 1].phase == Parked {
      f', at' := ProlongWake(f, at, r, a, j, k);
    }
    f', at' := ProlongEntry(f', at', r, a, j, k);
    var l := f'.loops[|f'.loops| - 1];
    if l.n.lastApplied >= l.phase.target {
      f', at' := Prolong(f', at', r, a, j, k + 1, k + 1, Park, l.(phase := Parked));
    }
  }

  lemma ProlongHandle(f: Life, at: seq<nat>, r: Run, a: Id, j: nat, k: nat) returns (f': Life, at': seq<nat>)
    requires ReadyLife(f, at, r, a, j, k) && AliveFrom(r, a, j, k + 1)
    requires Handled(r.states[k].nodes[a], r.states[k + 1].nodes[a])
    ensures ReadyLife(f', at', r, a, j, k + 1)
  {
    hide IsLife;
    var l, n' := f.loops[|f.loops| - 1], r.states[k + 1].nodes[a];
    f', at' := Prolong(f, at, r, a, j, k, k + 1, Handle(n', true), l.(n := n', owing := true));
    l := f'.loops[|f'.loops| - 1];
    f', at' := Prolong(f', at', r, a, j, k + 1, k + 1, Notify, l.(owing := false, token := true));
  }

  /** Every stretch of a run in which a server is up is the life of its loop: the channel and the
      goroutine never keep the server from applying what the run applies. */
  lemma {:induction false} HasLife(r: Run, a: Id, j: nat, k: nat) returns (f: Life, at: seq<nat>)
    requires IsRun(r) && AliveFrom(r, a, j, k)
    ensures ReadyLife(f, at, r, a, j, k)
    decreases k
  {
    hide IsRun, LifeOf, Handled, Crashes, Ready;
    if j == k {
      f, at := NewLife(r, a, j);
    } else {
      assert AliveFrom(r, a, j, k - 1);
      f, at := HasLife(r, a, j, k - 1);
      StepInRun(r, a, j, k, k - 1);
      if r.steps[k - 1] == Apply(a) {
        f, at := ProlongApply(f, at, r, a, j, k - 1);
      } else {
        f, at := ProlongHandle(f, at, r, a, j, k - 1);
      }
    }
  }

  lemma NewLife(r: Run, a: Id, j: nat) returns (f: Life, at: seq<nat>)
    requires IsRun(r) && AliveFrom(r, a, j, j)
    ensures ReadyLife(f, at, r, a, j, j)
  {
    hide IsRun;
    StartsFresh(r, a, j);
    f, at := Life([Fresh(r.states[j].nodes[a])], []), [j];
  }

  lemma StartsFresh(r: Run, a: Id, j: nat)
    requires IsRun(r) && AliveFrom(r, a, j, j)
    ensures var n := r.states[j].nodes[a]; n == Restart(n.currentTerm, n.votedFor, n.log)
  {
    if j > 0 {
      assert Next(r.states[j - 1], r.states[j], r.steps[j - 1]);
    }
  }
}
