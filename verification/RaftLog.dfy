/**
 The replicated log and the comparison rules of raft/log.go.

 Slot 0 of a log is a sentinel: the zero entry before any compaction, the snapshot boundary
 after one.  Every function here therefore works on a log with any base index.
 */
module RaftLog {
  import opened Bytes

  datatype LogEntry = LogEntry(term: nat, index: nat, command: Option<Str>)

  const SENTINEL := LogEntry(0, 0, None)

  /** Representation invariant of Server.log: non-empty, and indices rise by one from the sentinel. */
  ghost predicate Contiguous(log: seq<LogEntry>) {
    && |log| > 0
    && forall i :: 0 <= i < |log| ==> log[i].index == log[0].index + i
  }

  function BaseIndex(log: seq<LogEntry>): nat
    requires |log| > 0
  {
    log[0].index
  }

  function LastIndex(log: seq<LogEntry>): nat
    requires |log| > 0
  {
    log[|log| - 1].index
  }

  function LastTerm(log: seq<LogEntry>): nat
    requires |log| > 0
  {
    log[|log| - 1].term
  }

  function EntryAt(log: seq<LogEntry>, i: nat): Option<LogEntry>
    requires Contiguous(log)
  {
    if i < BaseIndex(log) || i > LastIndex(log) then None
    else Some(log[i - BaseIndex(log)])
  }

  function TermAt(log: seq<LogEntry>, i: nat): Option<nat>
    requires Contiguous(log)
  {
    match EntryAt(log, i)
    case None => None
    case Some(e) => Some(e.term)
  }

  /** Section 5.4.1 of the extended Raft paper: is a candidate's log at least as up-to-date as mine? */
  predicate UpToDate(candIndex: nat, candTerm: nat, log: seq<LogEntry>)
    requires |log| > 0
  {
    if candTerm != LastTerm(log) then candTerm > LastTerm(log) else candIndex >= LastIndex(log)
  }

  predicate MatchesPrev(log: seq<LogEntry>, prevIndex: nat, prevTerm: nat)
    requires Contiguous(log)
  {
    || prevIndex < BaseIndex(log)
    || TermAt(log, prevIndex) == Some(prevTerm)
  }

  lemma MatchesPrevInRange(log: seq<LogEntry>, prevIndex: nat, prevTerm: nat)
    requires Contiguous(log) && MatchesPrev(log, prevIndex, prevTerm)
    ensures prevIndex <= LastIndex(log)
  {
  }

  /** One iteration of appendFrom: receiver rules 3 and 4 for the entry landing at idx. */
  function AppendOne(log: seq<LogEntry>, idx: nat, e: LogEntry): (r: seq<LogEntry>)
    requires Contiguous(log)
    requires idx <= LastIndex(log) + 1
    ensures Contiguous(r) && BaseIndex(r) == BaseIndex(log) && r[0] == log[0]
    ensures idx <= LastIndex(r)
  {
    if idx <= BaseIndex(log) then log
    else
      match EntryAt(log, idx)
      case None => log + [LogEntry(e.term, idx, e.command)]
      case Some(x) =>
        if x.term == e.term then log
        else log[..idx - BaseIndex(log)] + [LogEntry(e.term, idx, e.command)]
  }

  /** appendFrom as a fold over the entries; the loop of the source computes it left to right. */
  function AppendFrom(log: seq<LogEntry>, prev: nat, entries: seq<LogEntry>): (r: seq<LogEntry>)
    requires Contiguous(log)
    requires prev <= LastIndex(log)
    ensures Contiguous(r) && BaseIndex(r) == BaseIndex(log) && r[0] == log[0]
    ensures prev + |entries| <= LastIndex(r)
    decreases |entries|
  {
    if entries == [] then log
    else
      var n := |entries| - 1;
      AppendOne(AppendFrom(log, prev, entries[..n]), prev + |entries|, entries[n])
  }

  function Majority(n: nat): nat { n / 2 + 1 }

  // ----- what AppendFrom does to an uncompacted log -----

  /** A log that still has its zero sentinel: index and position coincide. */
  ghost predicate Rooted(log: seq<LogEntry>) {
    && |log| > 0
    && log[0] == SENTINEL
    && forall i :: 0 <= i < |log| ==> log[i].index == i
  }

  lemma SliceToEnd(log: seq<LogEntry>, i: nat)
    requires i <= |log|
    ensures log[i..] == log[i..|log|]
  {
  }

  lemma RootedContiguous(log: seq<LogEntry>)
    requires Rooted(log)
    ensures Contiguous(log) && BaseIndex(log) == 0 && LastIndex(log) == |log| - 1
      && LastTerm(log) == log[|log| - 1].term
    ensures forall i: nat, t: nat :: MatchesPrev(log, i, t) <==> i < |log| && log[i].term == t
  {
  }

  /** Figure 3's Log Matching between two logs, stated at one position. */
  ghost predicate MatchAt(a: seq<LogEntry>, b: seq<LogEntry>, i: nat) {
    i < |a| && i < |b| && a[i].term == b[i].term ==> a[..i + 1] == b[..i + 1]
  }

  ghost predicate Matching(a: seq<LogEntry>, b: seq<LogEntry>) {
    forall i: nat :: MatchAt(a, b, i)
  }

  /**
   The closed form of appendFrom on a log that satisfies Log Matching with the leader's log:
   the follower's log is kept whole if it already holds the last entry sent, and otherwise
   becomes exactly the leader's prefix through that entry.
   */
  lemma {:induction false} AppendFromClosedForm(mine: seq<LogEntry>, leader: seq<LogEntry>, prev: nat, last: nat)
    requires Rooted(mine) && Rooted(leader) && Matching(mine, leader)
    requires prev <= last < |leader| && prev < |mine|
    requires mine[prev].term == leader[prev].term
    ensures AppendFrom(mine, prev, leader[prev + 1..last + 1]) == Overwrite(mine, leader, last)
    decreases last
  {
    hide AppendOne, AppendFrom, Contiguous, Matching, Rooted, LastIndex, BaseIndex;
    RootedContiguous(mine);
    var entries := leader[prev + 1..last + 1];
    AppendFromLast(mine, prev, entries);
    if last > prev {
      hide Overwrite;
      var n := |entries| - 1;
      assert entries[..n] == leader[prev + 1..last] && entries[n] == leader[last];
      AppendFromClosedForm(mine, leader, prev, last - 1);
      AppendOneClosedForm(mine, leader, last);
    }
  }

  lemma AppendFromLast(log: seq<LogEntry>, prev: nat, entries: seq<LogEntry>)
    requires Contiguous(log) && prev <= LastIndex(log)
    ensures entries == [] ==> AppendFrom(log, prev, entries) == log
    ensures entries != [] ==>
      var n := |entries| - 1;
      var before := AppendFrom(log, prev, entries[..n]);
      prev + |entries| <= LastIndex(before) + 1 && AppendFrom(log, prev, entries) == AppendOne(before, prev + |entries|, entries[n])
  {
  }

  /** The follower's log after the leader's entries through last: unchanged if it has the last one. */
  ghost function Overwrite(mine: seq<LogEntry>, leader: seq<LogEntry>, last: nat): seq<LogEntry>
    requires last < |leader|
  {
    if last < |mine| && mine[last].term == leader[last].term then mine else leader[..last + 1]
  }

  /** The step of AppendFromClosedForm. */
  lemma AppendOneClosedForm(mine: seq<LogEntry>, leader: seq<LogEntry>, last: nat)
    requires Rooted(mine) && Rooted(leader) && Matching(mine, leader)
    requires 0 < last < |leader|
    ensures
      var before := Overwrite(mine, leader, last - 1);
      && Contiguous(before) && last <= LastIndex(before) + 1
      && AppendOne(before, last, leader[last]) == Overwrite(mine, leader, last)
  {
    assert MatchAt(mine, leader, last - 1) && MatchAt(mine, leader, last);
    assert leader[..last + 1] == leader[..last] + [leader[last]];
    if last < |mine| && mine[last].term == leader[last].term {
      assert mine[last - 1] == mine[..last + 1][last - 1] == leader[..last + 1][last - 1] == leader[last - 1];
    } else if last - 1 < |mine| && mine[last - 1].term == leader[last - 1].term {
      assert mine[..last] == leader[..last];
      if last == |mine| {
        assert mine == mine[..last];
      }
    }
  }

  /** Duplicate delivery: running the same entries through appendFrom again changes nothing. */
  lemma {:induction false} AppendFromKeepsPresent(log: seq<LogEntry>, prev: nat, entries: seq<LogEntry>)
    requires Contiguous(log) && prev <= LastIndex(log)
    requires forall i :: 0 <= i < |entries| && prev + i + 1 > BaseIndex(log) ==>
      TermAt(log, prev + i + 1) == Some(entries[i].term)
    ensures AppendFrom(log, prev, entries) == log
    decreases |entries|
  {
    if entries != [] {
      var n := |entries| - 1;
      assert forall i :: 0 <= i < n ==> entries[..n][i] == entries[i];
      AppendFromKeepsPresent(log, prev, entries[..n]);
      assert n >= 0 && prev + n + 1 > BaseIndex(log) ==> TermAt(log, prev + n + 1) == Some(entries[n].term);
    }
  }
}
