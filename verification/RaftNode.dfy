/** The imperative Raft server.  Every handler is proved to make exactly the transition of Raft.dfy.

    `View` is the server's abstract state; `log` is the log the map-based store represents.  `term`
    and `vote` of the stable store are kept beside the fields they persist. */
module RaftNodes {
  import opened Raft
  import opened LogStores

  // ----- counting --------------------------------------------------------------------------------------

  /** How many of the values are at least `k`. */
  function CountGe(s: seq<nat>, k: nat): nat {
    if s == [] then 0 else (if s[0] >= k then 1 else 0) + CountGe(s[1..], k)
  }

  lemma {:induction false} CountGeConcat(a: seq<nat>, b: seq<nat>, k: nat)
    ensures CountGe(a + b, k) == CountGe(a, k) + CountGe(b, k)
  {
    if a == [] {
      assert a + b == b;
    } else {
      assert (a + b)[1..] == a[1..] + b;
      CountGeConcat(a[1..], b, k);
    }
  }

  predicate Descending(s: seq<nat>) {
    forall i, j | 0 <= i <= j < |s| :: s[i] >= s[j]
  }

  lemma {:induction false} CountBounds(s: seq<nat>, k: nat)
    ensures CountGe(s, k) <= |s|
    ensures (forall i | 0 <= i < |s| :: s[i] >= k) ==> CountGe(s, k) == |s|
    ensures (forall i | 0 <= i < |s| :: s[i] < k) ==> CountGe(s, k) == 0
  {
    if s != [] {
      CountBounds(s[1..], k);
    }
  }

  /** In a descending sequence, the value at position m is the largest that m + 1 values reach. */
  lemma MajorityElement(s: seq<nat>, m: nat)
    requires Descending(s) && m < |s|
    ensures CountGe(s, s[m]) >= m + 1 && CountGe(s, s[m] + 1) <= m
  {
    hide CountGe, Descending;
    ReachedBy(s, m);
    NotReachedBy(s, m);
  }

  lemma ReachedBy(s: seq<nat>, m: nat)
    requires Descending(s) && m < |s|
    ensures CountGe(s, s[m]) >= m + 1
  {
    hide CountGe;
    var front, rest := s[..m + 1], s[m + 1..];
    assert s == front + rest;
    CountGeConcat(front, rest, s[m]);
    CountBounds(front, s[m]);
  }

  lemma NotReachedBy(s: seq<nat>, m: nat)
    requires Descending(s) && m < |s|
    ensures CountGe(s, s[m] + 1) <= m
  {
    hide CountGe;
    var front, rest := s[..m], s[m..];
    assert s == front + rest;
    CountGeConcat(front, rest, s[m] + 1);
    CountBounds(front, s[m] + 1);
    CountBounds(rest, s[m] + 1);
  }

  /** Insertion into a descending sequence. */
  method Insert(s: seq<nat>, x: nat) returns (r: seq<nat>)
    requires Descending(s)
    ensures Descending(r) && multiset(r) == multiset(s) + multiset{x} && |r| == |s| + 1
    ensures forall k: nat :: CountGe(r, k) == CountGe(s, k) + CountGe([x], k)
  {
    var i := 0;
    while i < |s| && s[i] > x
      invariant i <= |s| && forall j | 0 <= j < i :: s[j] > x
    {
      i := i + 1;
    }
    r := s[..i] + [x] + s[i..];
    assert s == s[..i] + s[i..];
    forall k: nat ensures CountGe(r, k) == CountGe(s, k) + CountGe([x], k) {
      CountGeConcat(s[..i] + [x], s[i..], k);
      CountGeConcat(s[..i], [x], k);
      CountGeConcat(s[..i], s[i..], k);
    }
  }

  /** What `sort.Slice` with "greater" promises. */
  method SortDescending(s: seq<nat>) returns (r: seq<nat>)
    ensures Descending(r) && multiset(r) == multiset(s) && |r| == |s|
    ensures forall k: nat :: CountGe(r, k) == CountGe(s, k)
  {
    r := [];
    for i := 0 to |s|
      invariant Descending(r) && multiset(r) == multiset(s[..i]) && |r| == i
      invariant forall k: nat :: CountGe(r, k) == CountGe(s[..i], k)
    {
      assert s[..i + 1] == s[..i] + [s[i]];
      ghost var before := r;
      r := Insert(r, s[i]);
      forall k: nat ensures CountGe(r, k) == CountGe(s[..i + 1], k) {
        assert CountGe(before, k) == CountGe(s[..i], k);
        CountGeConcat(s[..i], [s[i]], k);
      }
    }
    assert s[..|s|] == s;
  }

  function Reaching(peers: map<Id, Peer>, ids: set<Id>, k: nat): set<Id>
    requires ids <= peers.Keys
  {
    set p | p in ids && peers[p].matchIndex >= k
  }

  lemma ReachingMore(peers: map<Id, Peer>, ids: set<Id>, p: Id, k: nat)
    requires ids <= peers.Keys && p in peers && p !in ids
    ensures |Reaching(peers, ids + {p}, k)| == |Reaching(peers, ids, k)| + CountGe([peers[p].matchIndex], k)
  {
    if peers[p].matchIndex >= k {
      assert Reaching(peers, ids + {p}, k) == Reaching(peers, ids, k) + {p};
    } else {
      assert Reaching(peers, ids + {p}, k) == Reaching(peers, ids, k);
    }
  }

  /** The match indices of the peers, in the order of a map iteration. */
  method CollectMatches(peers: map<Id, Peer>) returns (s: seq<nat>)
    ensures |s| == |peers|
    ensures forall k: nat :: CountGe(s, k) == |Reaching(peers, peers.Keys, k)|
  {
    s := [];
    var rest, done := peers.Keys, {};
    while rest != {}
      invariant rest !! done && rest + done == peers.Keys && |s| == |done|
      invariant forall k: nat :: CountGe(s, k) == |Reaching(peers, done, k)|
      decreases rest
    {
      var p :| p in rest;
      ghost var before := s;
      s := s + [peers[p].matchIndex];
      forall k: nat ensures CountGe(s, k) == |Reaching(peers, done + {p}, k)| {
        CountGeConcat(before, [peers[p].matchIndex], k);
        ReachingMore(peers, done, p, k);
        assert CountGe(before, k) == |Reaching(peers, done, k)|;
      }
      rest, done := rest - {p}, done + {p};
    }
    assert done == peers.Keys && |peers.Keys| == |peers|;
  }

  /** The position `majority - 1` of the sorted match indices is the majority index. */
  lemma SortedGivesMajority(n: Node, me: Id, s: seq<nat>, r: seq<nat>)
    requires me !in n.peers && |s| == |n.peers| && |r| == |s| + 1 && Descending(r)
    requires forall k: nat :: CountGe(s, k) == |Reaching(n.peers, n.peers.Keys, k)|
    requires forall k: nat :: CountGe(r, k) == CountGe([|n.log|] + s, k)
    ensures IsMajorityIndex(n, me, r[|r| / 2])
  {
    hide CountGe, Reaching, Holders, Descending;
    MajorityElement(r, |r| / 2);
    var k := r[|r| / 2];
    HoldersCount(n, me, s, r, k);
    HoldersCount(n, me, s, r, k + 1);
  }

  lemma HoldersCount(n: Node, me: Id, s: seq<nat>, r: seq<nat>, k: nat)
    requires me !in n.peers
    requires CountGe(s, k) == |Reaching(n.peers, n.peers.Keys, k)| && CountGe(r, k) == CountGe([|n.log|] + s, k)
    ensures |Holders(n, me, k)| == CountGe(r, k)
  {
    var others := Reaching(n.peers, n.peers.Keys, k);
    CountGeConcat([|n.log|], s, k);
    assert [|n.log|][1..] == [];
    assert Holders(n, me, k) == (if k <= |n.log| then {me} else {}) + others;
    assert me !in others;
  }

  // ----- applying ---------------------------------------------------------------------------------------

  /** The server after the apply loop has caught up with index `k`. */
  function ApplyUpTo(n: Node, k: nat): Node
    requires k <= |n.log|
    decreases k - n.lastApplied
  {
    if n.lastApplied >= k then n else ApplyUpTo(ApplyNext(n), k)
  }

  /** The loop applies the entries in order, none skipped and none repeated. */
  lemma {:induction false} ApplyUpToMeaning(n: Node, k: nat)
    requires n.lastApplied <= k <= |n.log| && n.applied == n.log[..n.lastApplied]
    ensures ApplyUpTo(n, k) == n.(lastApplied := k, applied := n.log[..k])
    decreases k - n.lastApplied
  {
    if n.lastApplied < k {
      ApplyUpToMeaning(ApplyNext(n), k);
    }
  }

  // ----- crashes ------------------------------------------------------------------------------------------

  /** Every state of the disk while a server goes from `n` to `n'` is one a crash step of the cluster
      restarts from: a half-persisted one, one after a step-down, or that of `n'`. */
  predicate Survivable(n: Node, n': Node, disks: seq<Disk>) {
    forall i | 0 <= i < |disks| :: HalfPersisted(n, disks[i]) || SteppedDown(n, disks[i]) || disks[i] == DiskOf(n')
  }

  lemma CampaignSurvives(n: Node, me: Id)
    ensures Survivable(n, StartElection(n, me),
                       [Disk(n.currentTerm + 1, n.votedFor, n.log), Disk(n.currentTerm + 1, me, n.log)])
  {
  }

  /** The same for a request: the log may also be cut, with nothing stored behind the cut yet. */
  ghost predicate SurvivableIn(n: Node, n': Node, req: AppendReq, disks: seq<Disk>) {
    forall i | 0 <= i < |disks| ::
      || HalfPersisted(n, disks[i]) || SteppedDown(n, disks[i]) || disks[i] == DiskOf(n')
      || exists cut: nat :: CutDisk(n, req, disks[i], cut)
  }

  /** The writes of a step-down on a request, if there is one. */
  predicate DownWrites(n: Node, req: AppendReq, disks: seq<Disk>) {
    disks == if req.term > n.currentTerm || n.role != Follower
             then [Disk(req.term, n.votedFor, n.log), Disk(req.term, NOBODY, n.log)] else []
  }

  lemma NothingWritten(n: Node, req: AppendReq)
    ensures SurvivableIn(n, n, req, [])
  {
  }

  lemma DownSurvives(n: Node, n': Node, req: AppendReq, down: seq<Disk>)
    requires DownWrites(n, req, down) && req.term >= n.currentTerm
    ensures !(n.role == Leader && req.term == n.currentTerm) ==> SurvivableIn(n, n', req, down)
  {
  }

  /** The writes of a merge: none, the stored entries, or a cut and then the stored entries. */
  ghost predicate MergeWrites(log: seq<Entry>, n': Node, req: AppendReq, disks: seq<Disk>) {
    disks == [] || disks == [DiskOf(n')]
    || exists cut: nat :: && ConflictAt(log, req.prevIndex, req.entries, cut)
                          && disks == [DiskOf(n').(log := log[..cut]), DiskOf(n')]
  }

  lemma MergeSurvives(n: Node, n': Node, req: AppendReq, down: seq<Disk>, merged: seq<Disk>)
    requires DownWrites(n, req, down) && Accepts(n, req) && MergeWrites(n.log, n', req, merged)
    requires n'.currentTerm == req.term && n'.votedFor == FollowerState(n, req).votedFor
    ensures !(n.role == Leader && req.term == n.currentTerm) ==> SurvivableIn(n, n', req, down + merged)
  {
    hide Consistent;
    if !(n.role == Leader && req.term == n.currentTerm) {
      DownSurvives(n, n', req, down);
      if |merged| == 2 {
        var cut: nat :| && ConflictAt(n.log, req.prevIndex, req.entries, cut)
                        && merged == [DiskOf(n').(log := n.log[..cut]), DiskOf(n')];
        assert CutDisk(n, req, merged[0], cut);
      }
    }
  }

  // ----- the server ----------------------------------------------------------------------------------------

  class RaftNode {
    const me: Id
    const others: set<Id>
    const store: InmemLogStore
    var currentTerm: nat
    var votedFor: Id
    var stableTerm: nat
    var stableVote: Id
    var state: Role
    var commitIndex: nat
    var lastApplied: nat
    var peers: map<Id, Peer>
    var ledTerm: nat
    var votes: set<Id>
    var applied: seq<Entry>
    ghost var log: seq<Entry>
    /** Every state of the disk so far: one for each write. */
    ghost var disks: seq<Disk>

    ghost function View(): Node
      reads this
    {
      Node(currentTerm, votedFor, log, state, commitIndex, lastApplied, peers, ledTerm, votes, applied)
    }

    /** The store holds the log, and what must survive a crash is on disk. */
    ghost predicate Valid()
      reads this, store
    {
      && store.Valid() && Represents(store.entries, log)
      && stableTerm == currentTerm && stableVote == votedFor
      && me !in peers && me !in others
    }

    /** `NewRaftNode`: `restoreState` reads term and vote back, everything volatile starts afresh. */
    constructor (id: Id, peerIds: set<Id>, logStore: InmemLogStore, term: nat, vote: Id, ghost held: seq<Entry>)
      requires logStore.Valid() && Represents(logStore.entries, held) && id !in peerIds
      ensures Valid() && View() == Restart(term, vote, held) && store == logStore && me == id && others == peerIds
    {
      me, others, store := id, peerIds, logStore;
      stableTerm, stableVote := term, vote;
      currentTerm, votedFor := term, vote;
      state, commitIndex, lastApplied, peers, ledTerm, votes, applied := Follower, 0, 0, map[], 0, {}, [];
      log, disks := held, [];
    }

    method LastIndex() returns (i: nat)
      requires Valid()
      ensures i == |log|
    {
      i := store.LastIndex();
      BoundsOfLog(store.entries, log, store.lowIdx, i);
    }

    method GetLog(index: nat) returns (found: bool, e: Entry)
      requires Valid()
      ensures found <==> 1 <= index <= |log|
      ensures found ==> e == log[index - 1]
    {
      var stored;
      found, stored := store.GetLog(index);
      e := Strip(stored);
    }

    method LastLogInfo() returns (index: nat, term: nat)
      requires Valid()
      ensures index == |log| && term == LastTerm(log)
    {
      hide Represents, Bounds;
      index := LastIndex();
      var found, e := GetLog(index);
      term := if found then e.term else 0;
    }

    /** Store entries behind the last one, in one write. */
    method StoreBehind(entries: seq<Entry>)
      requires Valid()
      modifies this`log, this`disks, store
      ensures Valid() && log == old(log) + entries && disks == old(disks) + [DiskOf(View())]
    {
      var last := LastIndex();
      StoreAppends(store.entries, log, entries);
      store.StoreLogs(StampAll(entries, last + 1));
      log := log + entries;
      disks := disks + [Disk(stableTerm, stableVote, log)];
    }

    // ----- term and vote -------------------------------------------------------------------------------------

    /** Two writes: first the term, then the vote. */
    method PersistState()
      modifies this`stableTerm, this`stableVote, this`disks
      ensures stableTerm == currentTerm && stableVote == votedFor
      ensures disks == old(disks) + [Disk(currentTerm, old(stableVote), log), Disk(currentTerm, votedFor, log)]
    {
      stableTerm := currentTerm;
      disks := disks + [Disk(stableTerm, stableVote, log)];
      stableVote := votedFor;
      disks := disks + [Disk(stableTerm, stableVote, log)];
    }

    method StepDownTo(newTerm: nat)
      requires Valid()
      modifies this
      ensures Valid() && View() == StepDown(old(View()), newTerm)
      ensures disks == old(disks) + [Disk(newTerm, old(votedFor), log), Disk(newTerm, NOBODY, log)]
    {
      currentTerm := newTerm;
      state := Follower;
      votedFor := NOBODY;
      PersistState();
    }

    /** `startElection`, with the transition to candidate that leads to it. */
    method Campaign() returns (req: VoteReq)
      requires Valid()
      modifies this
      ensures Valid() && View() == StartElection(old(View()), me)
      ensures req == ElectionRequest(View(), me)
      ensures old(disks) <= disks && Survivable(old(View()), View(), disks[|old(disks)|..])
    {
      hide Represents, Bounds, LastTerm, Survivable;
      ghost var n := View();
      state := Candidate;
      currentTerm := currentTerm + 1;
      votedFor := me;
      votes := {me};
      PersistState();
      CampaignSurvives(n, me);
      assert disks[|old(disks)|..] == [Disk(n.currentTerm + 1, n.votedFor, n.log), Disk(n.currentTerm + 1, me, n.log)];
      var lastIndex, lastTerm := LastLogInfo();
      req := VoteReq(currentTerm, me, lastIndex, lastTerm);
    }

    method HandleRequestVote(req: VoteReq) returns (resp: VoteResp)
      requires Valid()
      modifies this
      ensures Valid() && View() == HandleVoteReq(old(View()), req)
      ensures resp == VoteAnswer(old(View()), me, req)
      ensures old(disks) <= disks && Survivable(old(View()), View(), disks[|old(disks)|..])
    {
      hide Represents, Bounds;
      if req.term < currentTerm {
        return VoteResp(req, me, currentTerm, false);
      }
      if req.term > currentTerm {
        StepDownTo(req.term);
      }
      if votedFor != NOBODY && votedFor != req.candidate {
        return VoteResp(req, me, currentTerm, false);
      }
      var lastIndex, lastTerm := LastLogInfo();
      if !UpToDate(req.lastTerm, req.lastIndex, lastTerm, lastIndex) {
        return VoteResp(req, me, currentTerm, false);
      }
      votedFor := req.candidate;
      PersistState();
      resp := VoteResp(req, me, currentTerm, true);
    }

    /** One turn of the candidate's loop: count an answer. */
    method HandleVote(resp: VoteResp)
      requires Valid()
      modifies this
      ensures Valid() && View() == CountVote(old(View()), resp)
      ensures old(disks) <= disks && Survivable(old(View()), View(), disks[|old(disks)|..])
    {
      if resp.term > currentTerm {
        StepDownTo(resp.term);
      } else if resp.granted {
        votes := votes + {resp.voter};
      }
    }

    /** Winning: become leader and set up the peers. */
    method Lead()
      requires Valid()
      modifies this
      ensures Valid() && View() == BecomeLeader(old(View()), others)
    {
      var last := LastIndex();
      state := Leader;
      ledTerm := currentTerm;
      peers := map p | p in others :: Peer(last + 1, 0);
    }

    /** `handleApplyRequest`, and `appendNoOp` when `data` is empty. */
    method Propose(data: Bytes)
      requires Valid()
      modifies this`log, this`disks, store
      ensures Valid() && View() == AppendEntry(old(View()), data)
      ensures old(disks) <= disks && Survivable(old(View()), View(), disks[|old(disks)|..])
    {
      StoreBehind([Entry(currentTerm, data)]);
    }

    // ----- replication: the leader ----------------------------------------------------------------------------

    /** The first half of `replicateOnce`: the request for peer `p`. */
    method BuildRequest(p: Id) returns (req: AppendReq)
      requires Valid() && p in peers && peers[p].nextIndex >= 1
      ensures req == BuildAppend(View(), me, p)
    {
      hide Represents, Bounds;
      var next := peers[p].nextIndex;
      var prev, prevTerm := next - 1, 0;
      if prev > 0 {
        var found, e := GetLog(prev);
        prevTerm := if found then e.term else 0;
      }
      var last := LastIndex();
      var entries: seq<Entry> := [];
      var i := next;
      while i <= last
        invariant next <= i && (next <= last + 1 ==> i <= last + 1)
        invariant entries == if prev <= |log| then log[prev..i - 1] else []
      {
        var found, e := GetLog(i);
        if !found {
          break;
        }
        assert prev <= |log| ==> log[prev..i - 1] + [e] == log[prev..i];
        entries := entries + [e];
        i := i + 1;
      }
      assert prev <= |log| ==> log[prev..|log|] == log[prev..];
      req := AppendReq(currentTerm, me, p, prev, prevTerm, entries, commitIndex);
    }

    /** `advanceCommitIndex`; `k` is the index it tests. */
    method AdvanceCommitIndex() returns (k: nat)
      requires Valid()
      modifies this`commitIndex
      ensures Valid() && IsMajorityIndex(old(View()), me, k)
      ensures View() == AdvanceCommit(old(View()), k)
    {
      hide Represents, Bounds;
      var last := LastIndex();
      var others := CollectMatches(peers);
      var matches := SortDescending([last] + others);
      var majority := |matches| / 2 + 1;
      k := matches[majority - 1];
      SortedGivesMajority(View(), me, others, matches);
      if k <= commitIndex {
        return;
      }
      var found, e := GetLog(k);
      if !found || e.term != currentTerm {
        return;
      }
      commitIndex := k;
    }

    /** The search of the leader's whole log for its last entry of a term. */
    method FindLastOfTerm(term: nat) returns (index: nat)
      requires Valid()
      ensures index == LastOfTerm(log, term, |log|)
    {
      hide Represents, Bounds;
      var i := LastIndex();
      while i >= 1
        invariant 0 <= i <= |log| && LastOfTerm(log, term, i) == LastOfTerm(log, term, |log|)
      {
        var found, e := GetLog(i);
        if e.term == term {
          return i;
        }
        i := i - 1;
      }
      index := 0;
    }

    /** Where to continue after a rejection. */
    method FindBackUp(resp: AppendResp) returns (next: nat)
      requires Valid()
      ensures next == BackUp(log, resp)
    {
      hide Represents, Bounds;
      next := resp.conflictIndex;
      if resp.conflictTerm > 0 {
        var last := FindLastOfTerm(resp.conflictTerm);
        if last > 0 {
          next := last + 1;
        }
      }
      if next < 1 {
        next := 1;
      }
    }

    /** The second half of `replicateOnce`.  `recorded` says whether the peer record the goroutine holds
        is still one of `peers`. */
    method HandleAppendResponse(resp: AppendResp, recorded: bool) returns (k: nat)
      requires Valid() && (recorded ==> resp.req.to in peers)
      modifies this
      ensures Valid() && View() == HandleAppendResp(old(View()), resp, k, recorded)
      ensures resp.success && resp.term <= old(currentTerm) ==>
                IsMajorityIndex(if recorded then RecordAppend(old(View()), resp) else old(View()), me, k)
      ensures old(disks) <= disks && Survivable(old(View()), View(), disks[|old(disks)|..])
    {
      hide Represents, Bounds, IsMajorityIndex, BackUp;
      k := 0;
      var p := resp.req.to;
      if resp.term > currentTerm {
        StepDownTo(resp.term);
      } else if resp.success {
        if |resp.req.entries| > 0 && recorded {
          var m := resp.req.prevIndex + |resp.req.entries|;
          peers := peers[p := Peer(m + 1, m)];
        }
        k := AdvanceCommitIndex();
      } else {
        var next := FindBackUp(resp);
        if recorded {
          peers := peers[p := peers[p].(nextIndex := next)];
        }
      }
    }

    // ----- replication: the follower ---------------------------------------------------------------------------

    /** The backward scan for the first entry of the conflicting term. */
    method FindFirstOfTerm(x: nat) returns (index: nat)
      requires Valid() && 1 <= x <= |log|
      ensures index == FirstOfTerm(log, x)
    {
      hide Represents, Bounds;
      var found, conflict := GetLog(x);
      index := x;
      var i := x - 1;
      while i >= 1
        invariant 0 <= i && index == i + 1 && index <= x
        invariant log[index - 1].term == conflict.term == log[x - 1].term
        invariant FirstOfTerm(log, index) == FirstOfTerm(log, x)
      {
        var there, e := GetLog(i);
        if e.term != conflict.term {
          break;
        }
        index := i;
        i := i - 1;
      }
    }

    /** Step 3: skip matching entries, cut at the first conflict, append the rest. */
    method MergeEntries(prev: nat, entries: seq<Entry>)
      requires Valid() && prev <= |log|
      modifies this`log, this`disks, store
      ensures Valid() && log == MergeLog(old(log), prev, entries)
      ensures disks == old(disks) || disks == old(disks) + [DiskOf(View())]
           || exists cut: nat :: && ConflictAt(old(log), prev, entries, cut)
                                 && disks == old(disks) + [DiskOf(View()).(log := old(log)[..cut]), DiskOf(View())]
    {
      hide Represents, Bounds;
      var i := 0;
      assert entries[0..] == entries;
      while i < |entries|
        invariant i <= |entries| && Valid() && log == old(log) && prev + i <= |log|
        invariant MergeLog(log, prev + i, entries[i..]) == MergeLog(log, prev, entries)
        invariant disks == old(disks) && forall x | prev <= x < prev + i :: log[x].term == entries[x - prev].term
      {
        var index := prev + i + 1;
        assert entries[i..][0] == entries[i] && entries[i..][1..] == entries[i + 1..];
        var found, existing := GetLog(index);
        if !found {
          StoreBehind(entries[i..]);
          return;
        }
        if existing.term != entries[i].term {
          var last := LastIndex();
          DeleteCuts(store.entries, log, index);
          store.DeleteRange(index, last);
          log := log[..index - 1];
          disks := disks + [Disk(stableTerm, stableVote, log)];
          assert ConflictAt(old(log), prev, entries, index - 1);
          StoreBehind(entries[i..]);
          return;
        }
        i := i + 1;
      }
      assert entries[|entries|..] == [];
    }

    /** Step 2: the consistency check, and where the logs conflict. */
    method CheckLog(req: AppendReq) returns (ok: bool, conflictTerm: nat, conflictIndex: nat)
      requires Valid()
      ensures ok <==> Consistent(log, req)
      ensures !ok && |log| < req.prevIndex ==> conflictTerm == 0 && conflictIndex == |log| + 1
      ensures !ok && |log| >= req.prevIndex ==>
                conflictTerm == log[req.prevIndex - 1].term && conflictIndex == FirstOfTerm(log, req.prevIndex)
    {
      hide Represents, Bounds;
      if req.prevIndex > 0 {
        var last := LastIndex();
        if last < req.prevIndex {
          return false, 0, last + 1;
        }
        var found, prevEntry := GetLog(req.prevIndex);
        if prevEntry.term != req.prevTerm {
          var first := FindFirstOfTerm(req.prevIndex);
          return false, prevEntry.term, first;
        }
      }
      return true, 0, 0;
    }

    /** Step 1, for a request that is not stale: recognise the leader of the term. */
    method FollowLeader(req: AppendReq) returns (ghost down: seq<Disk>)
      requires Valid() && req.term >= currentTerm
      modifies this
      ensures Valid() && View() == FollowerState(old(View()), req)
      ensures disks == old(disks) + down && DownWrites(old(View()), req, down)
    {
      hide Represents, Bounds;
      down := if req.term > currentTerm || state != Follower
              then [Disk(req.term, votedFor, log), Disk(req.term, NOBODY, log)] else [];
      if req.term > currentTerm {
        StepDownTo(req.term);
      } else if state != Follower {
        StepDownTo(req.term);
      }
      state := Follower;
    }

    /** Steps 3 and 4: merge the entries and move the commit index. */
    method TakeEntries(req: AppendReq) returns (ghost merged: seq<Disk>)
      requires Valid() && req.prevIndex <= |log|
      modifies this, store
      ensures Valid()
      ensures var log' := MergeLog(old(log), req.prevIndex, req.entries);
              View() == old(View()).(log := log',
                                     commitIndex := if req.leaderCommit > old(commitIndex)
                                                    then Min(req.leaderCommit, |log'|) else old(commitIndex))
      ensures disks == old(disks) + merged && MergeWrites(old(log), View(), req, merged)
    {
      hide MergeLog, Represents, Bounds, ConflictAt;
      MergeEntries(req.prevIndex, req.entries);
      merged := disks[|old(disks)|..];
      if req.leaderCommit > commitIndex {
        var last := LastIndex();
        var newCommit := req.leaderCommit;
        if last < newCommit {
          newCommit := last;
        }
        commitIndex := newCommit;
      }
    }

    method HandleAppendEntries(req: AppendReq) returns (resp: AppendResp)
      requires Valid()
      modifies this, store
      ensures Valid() && View() == HandleAppendReq(old(View()), req)
      ensures resp == AppendAnswer(old(View()), req)
      ensures old(disks) <= disks
      ensures !(old(state) == Leader && req.term == old(currentTerm)) ==>
                SurvivableIn(old(View()), View(), req, disks[|old(disks)|..])
    {
      hide MergeLog, FirstOfTerm, Represents, Bounds, SurvivableIn, MergeWrites, DownWrites;
      ghost var n := View();
      if req.term < currentTerm {
        NothingWritten(n, req);
        assert disks[|old(disks)|..] == [];
        return AppendResp(req, currentTerm, false, 0, 0);
      }
      ghost var down := FollowLeader(req);
      var ok, conflictTerm, conflictIndex := CheckLog(req);
      if !ok {
        DownSurvives(n, View(), req, down);
        assert disks[|old(disks)|..] == down;
        return AppendResp(req, currentTerm, false, conflictTerm, conflictIndex);
      }
      ghost var merged := TakeEntries(req);
      MergeSurvives(n, View(), req, down, merged);
      assert disks[|old(disks)|..] == down + merged;
      resp := AppendResp(req, currentTerm, true, 0, 0);
    }

    // ----- the apply loop ----------------------------------------------------------------------------------------

    /** `applyCommitted`: hand the entries up to the commit index to the state machine, in order. */
    method ApplyCommitted()
      requires Valid() && lastApplied <= commitIndex <= |log| && applied == log[..lastApplied]
      modifies this`lastApplied, this`applied
      ensures Valid() && View() == ApplyUpTo(old(View()), commitIndex)
      ensures lastApplied == commitIndex && applied == log[..commitIndex]
    {
      hide Represents, Bounds;
      ApplyUpToMeaning(View(), commitIndex);
      var target := commitIndex;
      var idx := lastApplied + 1;
      while idx <= target
        invariant idx == lastApplied + 1 && lastApplied <= target
        invariant applied == log[..lastApplied]
      {
        var found, e := GetLog(idx);
        applied := applied + [e];
        lastApplied := idx;
        idx := idx + 1;
      }
    }
  }
}
