/** The replicated log of one SRaft node: index bounds, search and slicing. */
module RaftLog {
  import opened Common
  import opened MachineInts

  /** Indices are minted from 0 upwards; leaving out the largest int64_t keeps index + 1 an int64_t. */
  type Index = x: int | 0 <= x < TWO_TO_63 - 1
  /** The index of a last entry, -1 for an empty log. */
  type LastIndex = x: int | -1 <= x < TWO_TO_63 - 1
  /** One above a last index. */
  type NextIndex = x: int | 0 <= x < TWO_TO_63

  datatype LogEntry = LogEntry(index: Index, term: Uint64, data: string)

  function BaseLogIndex(logs: seq<LogEntry>): LastIndex {
    if logs == [] then -1 else logs[0].index
  }

  function LastLogIndex(logs: seq<LogEntry>): LastIndex {
    if logs == [] then -1 else logs[|logs| - 1].index
  }

  function LastLogTerm(logs: seq<LogEntry>): Uint64 {
    if logs == [] then 0 else logs[|logs| - 1].term
  }

  /** An entry is the one searched for; the int64_t index is compared as a uint64_t. */
  predicate Matches(e: LogEntry, term: Uint64, index: Uint64) {
    e.term == term && ToU64(e.index) == index
  }

  /** The last position holding (term, index), or -1, which the code returns as 2^64 - 1. */
  function FindLog(logs: seq<LogEntry>, term: Uint64, index: Uint64): (pos: int)
    ensures -1 <= pos < |logs|
    ensures pos >= 0 ==> Matches(logs[pos], term, index)
    ensures forall k :: pos < k < |logs| ==> !Matches(logs[k], term, index)
  {
    if logs == [] then -1
    else
      var n := |logs| - 1;
      if Matches(logs[n], term, index) then n else FindLog(logs[..n], term, index)
  }

  /** How many entries survive the erase at begin() + FindLog() + 1: the not-found value wraps to 0. */
  function Kept(pos: int): (n: Uint64)
    requires -1 <= pos
    ensures n <= pos + 1
    ensures pos < TWO_TO_63 ==> n == pos + 1
  {
    ToU64(ToU64(pos) + 1)
  }

  /** What a follower that accepts a request makes of its log. */
  function Splice(logs: seq<LogEntry>, prevTerm: Uint64, prevIndex: LastIndex, entries: seq<LogEntry>): seq<LogEntry> {
    logs[..Kept(FindLog(logs, prevTerm, ToU64(prevIndex)))] + entries
  }

  /** None is the blank entry the code returns for an index outside the log. */
  function GetLogByIndex(logs: seq<LogEntry>, index: Uint64): Option<LogEntry> {
    var offset := ToU64(index - ToU64(BaseLogIndex(logs)));
    if offset >= |logs| then None else Some(logs[offset])
  }

  /** The entries from index i to the end of the log; None as soon as one of them is blank. */
  function EntriesFrom(logs: seq<LogEntry>, i: NextIndex): Option<seq<LogEntry>>
    decreases LastLogIndex(logs) - i
  {
    if i > LastLogIndex(logs) then Some([])
    else
      match (GetLogByIndex(logs, i), EntriesFrom(logs, i + 1))
      case (Some(e), Some(rest)) => Some([e] + rest)
      case _ => None
  }

  /** Every entry's index is one above that of the entry before it. */
  ghost predicate Contiguous(logs: seq<LogEntry>) {
    forall i :: 0 <= i < |logs| ==> logs[i].index == logs[0].index + i
  }

  lemma ContiguousBounds(logs: seq<LogEntry>)
    requires Contiguous(logs)
    ensures logs != [] ==> LastLogIndex(logs) == BaseLogIndex(logs) + |logs| - 1
    ensures |logs| < TWO_TO_63
  {
    if logs != [] {
      assert logs[|logs| - 1].index == logs[0].index + |logs| - 1;
    }
  }

  /** On a contiguous log an index is found exactly when it lies between base and last. */
  lemma GetLogByIndexSpec(logs: seq<LogEntry>, i: NextIndex)
    requires Contiguous(logs)
    ensures GetLogByIndex(logs, i) ==
            if logs != [] && BaseLogIndex(logs) <= i <= LastLogIndex(logs) then Some(logs[i - BaseLogIndex(logs)])
              else None
  {
    ContiguousBounds(logs);
  }

  /** A leader reading its own log from a stale index either gets exactly its tail or a blank entry. */
  lemma {:induction false} EntriesFromSpec(logs: seq<LogEntry>, i: NextIndex)
    requires Contiguous(logs)
    ensures EntriesFrom(logs, i) ==
            if i > LastLogIndex(logs) then Some([])
            else if i < BaseLogIndex(logs) then None
            else Some(logs[i - BaseLogIndex(logs)..])
    decreases LastLogIndex(logs) - i
  {
    ContiguousBounds(logs);
    if i <= LastLogIndex(logs) {
      GetLogByIndexSpec(logs, i);
      EntriesFromSpec(logs, i + 1);
      if BaseLogIndex(logs) <= i {
        var at := i - BaseLogIndex(logs);
        assert logs[at..] == [logs[at]] + logs[at + 1..];
      }
    }
  }

  /** On a contiguous log the search finds the entry at the sought index when its term agrees. */
  lemma FindLogSpec(logs: seq<LogEntry>, term: Uint64, index: LastIndex)
    requires Contiguous(logs)
    ensures var pos := FindLog(logs, term, ToU64(index));
            if logs != [] && logs[0].index <= index <= LastLogIndex(logs) && logs[index - logs[0].index].term == term
            then pos == index - logs[0].index
            else pos == -1
  {
    ContiguousBounds(logs);
    var pos := FindLog(logs, term, ToU64(index));
    if logs != [] && logs[0].index <= index <= LastLogIndex(logs) && logs[index - logs[0].index].term == term {
      assert Matches(logs[index - logs[0].index], term, ToU64(index));
    }
  }

  /** The splice keeps the log up to and including the previous entry when it holds it, and nothing otherwise. */
  lemma SpliceSpec(logs: seq<LogEntry>, prevTerm: Uint64, prevIndex: LastIndex, entries: seq<LogEntry>)
    requires Contiguous(logs)
    ensures Splice(logs, prevTerm, prevIndex, entries) ==
            if logs != [] && logs[0].index <= prevIndex <= LastLogIndex(logs) &&
               logs[prevIndex - logs[0].index].term == prevTerm
            then logs[..prevIndex - logs[0].index + 1] + entries
            else entries
  {
    ContiguousBounds(logs);
    FindLogSpec(logs, prevTerm, prevIndex);
    assert logs[..0] + entries == entries;
  }
}
