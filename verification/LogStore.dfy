/** `InmemLogStore`: log entries in a map, with the lowest and highest index cached beside it. */
module LogStores {
  import opened Raft

  datatype LogEntry = LogEntry(index: nat, term: nat, data: Bytes)

  function Strip(e: LogEntry): Entry {
    Entry(e.term, e.data)
  }

  function Stamp(e: Entry, index: nat): LogEntry {
    LogEntry(index, e.term, e.data)
  }

  /** Entries as they are stored when the first of them goes to index `from`. */
  function StampAll(entries: seq<Entry>, from: nat): seq<LogEntry> {
    seq(|entries|, i requires 0 <= i < |entries| => Stamp(entries[i], from + i))
  }

  /** The map holds exactly the log, entry x at index x + 1. */
  ghost predicate Represents(m: map<nat, LogEntry>, log: seq<Entry>) {
    && (forall i :: i in m <==> 1 <= i <= |log|)
    && (forall i | i in m :: m[i] == Stamp(log[i - 1], i))
  }

  /** `low` and `high` are the smallest and the largest key, or 0 if there is none. */
  ghost predicate Bounds(m: map<nat, LogEntry>, low: nat, high: nat) {
    if m == map[] then low == 0 && high == 0
    else low in m && high in m && forall i | i in m :: low <= i <= high
  }

  function StoreAll(m: map<nat, LogEntry>, entries: seq<LogEntry>): map<nat, LogEntry>
    decreases |entries|
  {
    if entries == [] then m else StoreAll(m[entries[0].index := entries[0]], entries[1..])
  }

  function Without(m: map<nat, LogEntry>, min: nat, max: nat): map<nat, LogEntry> {
    map i | i in m && !(min <= i <= max) :: m[i]
  }

  /** Storing entries behind the last one appends them to the log. */
  lemma {:induction false} StoreAppends(m: map<nat, LogEntry>, log: seq<Entry>, entries: seq<Entry>)
    requires Represents(m, log)
    ensures Represents(StoreAll(m, StampAll(entries, |log| + 1)), log + entries)
    decreases |entries|
  {
    var stamped := StampAll(entries, |log| + 1);
    if entries == [] {
      assert log + entries == log;
    } else {
      var log' := log + [entries[0]];
      var m' := m[|log| + 1 := stamped[0]];
      assert Represents(m', log');
      assert stamped[1..] == StampAll(entries[1..], |log'| + 1);
      StoreAppends(m', log', entries[1..]);
      assert log + entries == log' + entries[1..];
    }
  }

  /** Deleting from an index to the last one cuts the log before it. */
  lemma DeleteCuts(m: map<nat, LogEntry>, log: seq<Entry>, min: nat)
    requires Represents(m, log) && 1 <= min <= |log|
    ensures Represents(Without(m, min, |log|), log[..min - 1])
  {
  }

  lemma BoundsOfLog(m: map<nat, LogEntry>, log: seq<Entry>, low: nat, high: nat)
    requires Represents(m, log) && Bounds(m, low, high)
    ensures high == |log|
  {
    assert |log| > 0 ==> 1 in m && |log| in m;
  }

  class InmemLogStore {
    var entries: map<nat, LogEntry>
    var lowIdx: nat
    var highIdx: nat

    /** The cached bounds are those of the map; index 0 is never used, so 0 can stand for "none". */
    ghost predicate Valid()
      reads this
    {
      0 !in entries && Bounds(entries, lowIdx, highIdx)
    }

    constructor ()
      ensures Valid() && entries == map[] && fresh(this)
    {
      entries, lowIdx, highIdx := map[], 0, 0;
    }

    method LastIndex() returns (i: nat)
      requires Valid()
      ensures Bounds(entries, lowIdx, i)
    {
      i := highIdx;
    }

    method GetLog(index: nat) returns (found: bool, e: LogEntry)
      requires Valid()
      ensures found <==> index in entries
      ensures found ==> e == entries[index]
    {
      found := index in entries;
      e := if found then entries[index] else LogEntry(0, 0, []);
    }

    /** `StoreLogs`: put the entries at their indices, keeping the bounds. */
    method StoreLogs(more: seq<LogEntry>)
      requires Valid() && forall k | 0 <= k < |more| :: more[k].index >= 1
      modifies this
      ensures Valid() && entries == StoreAll(old(entries), more)
    {
      for k := 0 to |more|
        invariant Valid() && StoreAll(entries, more[k..]) == StoreAll(old(entries), more)
      {
        var e := more[k];
        assert more[k..][0] == e && more[k..][1..] == more[k + 1..];
        entries := entries[e.index := e];
        assert e.index in entries;
        if lowIdx == 0 || e.index < lowIdx {
          lowIdx := e.index;
        }
        if e.index > highIdx {
          highIdx := e.index;
        }
      }
    }

    /** `DeleteRange`: remove the range, and look for the bounds again. */
    method DeleteRange(min: nat, max: nat)
      requires Valid()
      modifies this
      ensures Valid() && entries == Without(old(entries), min, max)
    {
      var i := min;
      while i <= max
        invariant min <= i
        invariant entries == map k | k in old(entries) && !(min <= k < i && k <= max) :: old(entries)[k]
      {
        entries := entries - {i};
        i := i + 1;
      }
      assert entries == Without(old(entries), min, max);
      lowIdx, highIdx := 0, 0;
      var rest := entries.Keys;
      while rest != {}
        invariant rest <= entries.Keys && entries == Without(old(entries), min, max)
        invariant rest == entries.Keys ==> lowIdx == 0 && highIdx == 0
        invariant rest != entries.Keys ==> lowIdx in entries && highIdx in entries
        invariant forall k | k in entries && k !in rest :: lowIdx <= k <= highIdx
        decreases rest
      {
        var idx :| idx in rest;
        assert idx in entries && idx >= 1;
        if lowIdx == 0 || idx < lowIdx {
          lowIdx := idx;
        }
        if idx > highIdx {
          highIdx := idx;
        }
        rest := rest - {idx};
      }
      assert entries == map[] <==> entries.Keys == {};
    }
  }
}
