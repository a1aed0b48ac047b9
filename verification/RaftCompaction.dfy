/**
 Compaction is invisible (section 7): a server whose log prefix was replaced by a snapshot answers
 and evolves exactly as one that kept its whole log, and InstallSnapshot does exactly what an
 AppendEntries carrying the whole covered prefix would have done.
 */
module RaftCompaction {
  import opened Bytes
  import opened RaftLog
  import opened RaftState
  import opened RaftInvariant
  import opened RaftSteps
  import opened RaftRepair

  /** The full log with everything through base replaced by a boundary entry. */
  ghost function Compacted(full: seq<LogEntry>, base: nat): seq<LogEntry>
    requires base < |full|
  {
    if base == 0 then full else [LogEntry(full[base].term, base, None)] + full[base + 1..]
  }

  lemma CompactedLog(full: seq<LogEntry>, base: nat)
    requires Rooted(full) && base < |full|
    ensures
      var c := Compacted(full, base);
      && Contiguous(c) && Contiguous(full) && BaseIndex(c) == base && BaseIndex(full) == 0
      && LastIndex(c) == LastIndex(full) == |full| - 1 && LastTerm(c) == LastTerm(full) && |c| == |full| - base
  {
  }

  /** At and above the boundary terms agree; strictly above it, whole entries. */
  lemma CompactedAt(full: seq<LogEntry>, base: nat, i: nat)
    requires Rooted(full) && base < |full| && base <= i
    ensures Contiguous(full) && Contiguous(Compacted(full, base))
    ensures TermAt(Compacted(full, base), i) == TermAt(full, i)
    ensures base < i ==> EntryAt(Compacted(full, base), i) == EntryAt(full, i)
    ensures base < i < |full| ==> i - base < |Compacted(full, base)| && Compacted(full, base)[i - base] == full[i]
  {
    CompactedLog(full, base);
  }

  /** Above the boundary both logs feed the same entries. */
  lemma {:induction false} CommandsCompacted(full: seq<LogEntry>, base: nat, lo: nat, hi: nat)
    requires Rooted(full) && base <= lo <= hi < |full|
    ensures Contiguous(full) && Contiguous(Compacted(full, base)) && BaseIndex(Compacted(full, base)) == base
    ensures LastIndex(full) == LastIndex(Compacted(full, base)) == |full| - 1
    ensures Commands(Compacted(full, base), lo, hi) == Commands(full, lo, hi)
    decreases hi
  {
    CompactedLog(full, base);
    if lo < hi {
      CommandsCompacted(full, base, lo, hi - 1);
      CompactedAt(full, base, hi);
    }
  }

  // ----- the refinement relation -----

  /** The fields compaction must not disturb: all but the log itself, the snapshot and the disk. */
  ghost predicate SameBut(c: ServerState, f: ServerState) {
    c.(log := f.log, snapshot := f.snapshot, disk := f.disk) == f
  }

  /** c's disk accounts for no more than was applied, and for at least what f's marker does. */
  ghost predicate MarkersOk(c: ServerState, f: ServerState) {
    && c.disk.marker <= f.lastApplied && f.disk.marker <= f.lastApplied
    && f.disk.marker <= Max(SnapshotIndex(c.disk), c.disk.marker)
  }

  /** c is f with its log compacted, at or below what has been applied. */
  ghost predicate Refines(c: ServerState, f: ServerState) {
    && Rooted(f.log) && |c.log| > 0
    && BaseIndex(c.log) <= f.lastApplied <= f.commitIndex < |f.log|
    && c.log == Compacted(f.log, BaseIndex(c.log))
    && SameBut(c, f) && MarkersOk(c, f)
  }

  lemma RefinesLogs(c: ServerState, f: ServerState)
    requires Refines(c, f)
    ensures Contiguous(c.log) && Contiguous(f.log) && BaseIndex(f.log) == 0
    ensures LastIndex(c.log) == LastIndex(f.log) == |f.log| - 1 && LastTerm(c.log) == LastTerm(f.log)
  {
    CompactedLog(f.log, BaseIndex(c.log));
  }

  /** The request agrees with what f has committed, wherever they overlap. */
  ghost predicate Consistent(a: AppendArgs, f: ServerState)
    requires f.commitIndex < |f.log|
  {
    && (a.prevIndex <= f.commitIndex ==> a.prevTerm == f.log[a.prevIndex].term)
    && Agreeing(f.log, f.commitIndex, a.prevIndex, a.entries)
    && a.leaderCommit <= a.prevIndex + |a.entries|
  }

  // ----- AppendEntries -----

  lemma MatchesSame(full: seq<LogEntry>, base: nat, a: AppendArgs)
    requires Rooted(full) && base < |full| && Contiguous(full) && Contiguous(Compacted(full, base))
    requires a.prevIndex < base ==> a.prevTerm == full[a.prevIndex].term
    ensures MatchesPrev(Compacted(full, base), a.prevIndex, a.prevTerm) == MatchesPrev(full, a.prevIndex, a.prevTerm)
  {
    CompactedLog(full, base);
    CompactedAt(full, base, Max(base, a.prevIndex));
  }

  lemma AppendOneCompacted(full: seq<LogEntry>, base: nat, idx: nat, e: LogEntry)
    requires Rooted(full) && base < |full| && 0 < idx <= |full|
    requires idx <= base ==> full[idx].term == e.term
    ensures Contiguous(full) && Contiguous(Compacted(full, base)) && idx <= LastIndex(full) + 1
      && idx <= LastIndex(Compacted(full, base)) + 1
    ensures
      var r := AppendOne(full, idx, e);
      Rooted(r) && base < |r| && AppendOne(Compacted(full, base), idx, e) == Compacted(r, base)
  {
    hide Compacted, Rooted;
    CompactedLog(full, base);
    if base < idx {
      var x := LogEntry(e.term, idx, e.command);
      CompactedAt(full, base, idx);
      CutCompacted(full, base, idx, x);
      if idx == |full| {
        assert full[..idx] == full && Compacted(full, base)[..idx - base] == Compacted(full, base);
      }
    }
  }

  lemma CutCompacted(full: seq<LogEntry>, base: nat, idx: nat, x: LogEntry)
    requires Rooted(full) && base < idx <= |full| && x.index == idx
    ensures |Compacted(full, base)| == |full| - base
    ensures Rooted(full[..idx] + [x]) && Compacted(full, base)[..idx - base] + [x] == Compacted(full[..idx] + [x], base)
  {
    if base > 0 {
      assert Compacted(full, base)[..idx - base] == [LogEntry(full[base].term, base, None)] + full[base + 1..idx];
      assert (full[..idx] + [x])[base + 1..] == full[base + 1..idx] + [x];
    }
  }

  /** The entries to land after prev agree with full on every index through keep. */
  ghost predicate Agreeing(full: seq<LogEntry>, keep: nat, prev: nat, entries: seq<LogEntry>) {
    && keep < |full|
    && forall i :: 0 <= i < |entries| && prev + i + 1 <= keep ==> full[prev + i + 1].term == entries[i].term
  }

  lemma AgreeingStep(full: seq<LogEntry>, keep: nat, prev: nat, entries: seq<LogEntry>)
    requires Agreeing(full, keep, prev, entries) && entries != []
    ensures
      var n := |entries| - 1;
      Agreeing(full, keep, prev, entries[..n]) && (prev + n + 1 <= keep ==> full[prev + n + 1].term == entries[n].term)
  {
  }

  /** appendFrom commutes with compaction for entries that agree at or below keep >= base. */
  lemma {:induction false} AppendFromCompacted(full: seq<LogEntry>, base: nat, keep: nat, prev: nat,
                                               entries: seq<LogEntry>)
    requires Rooted(full) && base <= keep < |full| && prev < |full|
    requires Agreeing(full, keep, prev, entries)
    requires Contiguous(full) && Contiguous(Compacted(full, base)) && prev <= LastIndex(full)
      && prev <= LastIndex(Compacted(full, base))
    ensures Appended(full, AppendFrom(full, prev, entries), base, keep, prev + |entries|)
    ensures AppendFrom(Compacted(full, base), prev, entries) == Compacted(AppendFrom(full, prev, entries), base)
    decreases |entries|
  {
    hide Compacted, AppendOne, TermAt, EntryAt, Rooted, Contiguous, Agreeing, LastIndex, BaseIndex;
    if entries != [] {
      var n := |entries| - 1;
      AgreeingStep(full, keep, prev, entries);
      AppendFromCompacted(full, base, keep, prev, entries[..n]);
      AppendStepCompacted(full, AppendFrom(full, prev, entries[..n]), base, keep, prev + n + 1, entries[n]);
    }
  }

  /** r extends or repairs full strictly above keep, and reaches last. */
  ghost predicate Appended(full: seq<LogEntry>, r: seq<LogEntry>, base: nat, keep: nat, last: nat)
  {
    && Rooted(r) && base <= keep < |r| && keep < |full| && r[..keep + 1] == full[..keep + 1] && last < |r|
  }

  lemma AppendStepCompacted(full: seq<LogEntry>, q: seq<LogEntry>, base: nat, keep: nat, idx: nat, e: LogEntry)
    requires 0 < idx && Appended(full, q, base, keep, idx - 1)
    requires idx <= keep ==> full[idx].term == e.term
    ensures Contiguous(q) && Contiguous(Compacted(q, base)) && idx <= LastIndex(q) + 1
      && idx <= LastIndex(Compacted(q, base)) + 1
    ensures Appended(full, AppendOne(q, idx, e), base, keep, idx)
    ensures AppendOne(Compacted(q, base), idx, e) == Compacted(AppendOne(q, idx, e), base)
  {
    hide Compacted, AppendOne, Rooted;
    assert idx <= keep ==> q[idx] == q[..keep + 1][idx] == full[..keep + 1][idx] == full[idx];
    assert idx <= base ==> q[idx].term == e.term;
    AppendOneCompacted(q, base, idx, e);
    AppendOneKeeps(q, keep, idx, e);
  }

  lemma AppendOneKeeps(full: seq<LogEntry>, keep: nat, idx: nat, e: LogEntry)
    requires Rooted(full) && Contiguous(full) && keep < |full| && 0 < idx <= |full|
    requires idx <= keep ==> full[idx].term == e.term
    ensures idx <= LastIndex(full) + 1
    ensures
      var r := AppendOne(full, idx, e);
      keep < |r| && r[..keep + 1] == full[..keep + 1] && idx < |r|
  {
    if keep < idx {
      assert full[..idx][..keep + 1] == full[..keep + 1];
    }
  }

  lemma CompactedEqual(a: seq<LogEntry>, b: seq<LogEntry>, base: nat)
    requires Rooted(a) && Rooted(b) && base < |a| && base < |b| && a[..base + 1] == b[..base + 1]
    ensures Compacted(a, base) == Compacted(b, base) <==> a == b
  {
    assert a == a[..base + 1] + a[base + 1..] && b == b[..base + 1] + b[base + 1..];
    if base > 0 && Compacted(a, base) == Compacted(b, base) {
      assert a[base + 1..] == Compacted(a, base)[1..] == Compacted(b, base)[1..] == b[base + 1..];
    }
  }

  lemma ApplyRefines(c: ServerState, f: ServerState, saved: bool)
    requires Refines(c, f)
    ensures Contiguous(c.log) && Contiguous(f.log)
    ensures Refines(ApplyCommitted(c, saved), ApplyCommitted(f, saved))
    ensures BaseIndex(ApplyCommitted(c, saved).log) == BaseIndex(c.log)
  {
    hide Compacted, Commands;
    RefinesLogs(c, f);
    CommandsCompacted(f.log, BaseIndex(c.log), f.lastApplied, f.commitIndex);
  }

  /** The receiver after rules 2 to 4, with the log it ends up with. */
  ghost function Stored(s: ServerState, a: AppendArgs, log: seq<LogEntry>): (r: ServerState)
    ensures r.commitIndex == s.commitIndex && r.lastApplied == s.lastApplied && r.log == log
      && r.term == Max(s.term, a.term)
  {
    var s1 := ObserveTerm(s, a.term);
    var s2 := s1.(role := if s1.role == Candidate then Follower else s1.role, leaderId := a.leader, log := log);
    if log != s.log || a.term > s.term then Persist(s2) else s2
  }

  lemma AcceptShape(s: ServerState, a: AppendArgs, saved: bool)
    requires Contiguous(s.log) && !s.stopped && a.term >= s.term && MatchesPrev(s.log, a.prevIndex, a.prevTerm)
    ensures a.prevIndex <= LastIndex(s.log)
    ensures
      var r := Stored(s, a, AppendFrom(s.log, a.prevIndex, a.entries));
      HandleAppend(s, a, saved) ==
        (if a.leaderCommit > r.commitIndex
         then ApplyCommitted(r.(commitIndex := Min(a.leaderCommit, a.prevIndex + |a.entries|)), saved) else r,
         AppendReply(r.term, true))
  {
    hide MatchesPrev, AppendFrom, ApplyCommitted, Contiguous;
    MatchesPrevInRange(s.log, a.prevIndex, a.prevTerm);
  }

  lemma StoredRefines(c: ServerState, f: ServerState, a: AppendArgs, lc: seq<LogEntry>, lf: seq<LogEntry>)
    requires Refines(c, f) && Rooted(lf) && f.commitIndex < |lf| && |lc| > 0 && BaseIndex(lc) == BaseIndex(c.log)
    requires lc == Compacted(lf, BaseIndex(c.log)) && (lc != c.log <==> lf != f.log)
    ensures Refines(Stored(c, a, lc), Stored(f, a, lf))
  {
    hide Compacted, Rooted;
    if a.term > f.term {
      assert SameBut(Stored(c, a, lc), Stored(f, a, lf));
    } else {
      assert SameBut(Stored(c, a, lc), Stored(f, a, lf));
    }
  }

  /** The accepting branch of AppendEntries. */
  lemma AcceptRefines(c: ServerState, f: ServerState, a: AppendArgs, saved: bool)
    requires Refines(c, f) && Consistent(a, f) && !f.stopped && a.term >= f.term
    requires Contiguous(c.log) && Contiguous(f.log)
    requires MatchesPrev(c.log, a.prevIndex, a.prevTerm) && MatchesPrev(f.log, a.prevIndex, a.prevTerm)
    ensures HandleAppend(c, a, saved).1 == HandleAppend(f, a, saved).1
    ensures Refines(HandleAppend(c, a, saved).0, HandleAppend(f, a, saved).0)
  {
    hide Compacted, MatchesPrev, AppendFrom, ApplyCommitted, HandleAppend, Rooted, Agreeing, Contiguous, Stored;
    var base := BaseIndex(c.log);
    RefinesLogs(c, f);
    CompactedLog(f.log, base);
    AcceptShape(c, a, saved);
    AcceptShape(f, a, saved);
    AppendFromCompacted(f.log, base, f.commitIndex, a.prevIndex, a.entries);
    var lf, lc := AppendFrom(f.log, a.prevIndex, a.entries), AppendFrom(c.log, a.prevIndex, a.entries);
    assert lf[..base + 1] == lf[..f.commitIndex + 1][..base + 1] == f.log[..f.commitIndex + 1][..base + 1] == f.log[..base + 1];
    CompactedEqual(lf, f.log, base);
    CompactedLog(lf, base);
    StoredRefines(c, f, a, lc, lf);
    if a.leaderCommit > f.commitIndex {
      var k := Min(a.leaderCommit, a.prevIndex + |a.entries|);
      ApplyRefines(Stored(c, a, lc).(commitIndex := k), Stored(f, a, lf).(commitIndex := k), saved);
    }
  }

  /** AppendEntries: same answer, and the results are related again.  A stale request need not be consistent. */
  lemma AppendRefines(c: ServerState, f: ServerState, a: AppendArgs, saved: bool)
    requires Refines(c, f) && (a.term >= f.term ==> Consistent(a, f))
    ensures Contiguous(c.log) && Contiguous(f.log)
    ensures HandleAppend(c, a, saved).1 == HandleAppend(f, a, saved).1
    ensures Refines(HandleAppend(c, a, saved).0, HandleAppend(f, a, saved).0)
  {
    hide Compacted, MatchesPrev, AppendFrom, ApplyCommitted, Contiguous, Rooted;
    RefinesLogs(c, f);
    if !f.stopped && a.term >= f.term {
      MatchesSame(f.log, BaseIndex(c.log), a);
      if MatchesPrev(f.log, a.prevIndex, a.prevTerm) {
        AcceptRefines(c, f, a, saved);
      }
    }
  }

  // ----- votes, elections and leadership -----

  lemma VoteRefines(c: ServerState, f: ServerState, a: VoteArgs, recent: bool)
    requires Refines(c, f)
    ensures HandleVote(c, a, recent).1 == HandleVote(f, a, recent).1
    ensures Refines(HandleVote(c, a, recent).0, HandleVote(f, a, recent).0)
  {
    hide Compacted, Rooted;
    RefinesLogs(c, f);
  }

  lemma ElectionRefines(c: ServerState, f: ServerState, from: NodeId, reqTerm: nat, r: VoteReply)
    requires Refines(c, f)
    ensures Refines(StartElection(c), StartElection(f))
      && CampaignArgs(StartElection(c)) == CampaignArgs(StartElection(f))
    ensures Refines(HandleVoteReply(c, from, reqTerm, r), HandleVoteReply(f, from, reqTerm, r))
  {
    hide Compacted, Rooted;
    RefinesLogs(c, f);
  }

  lemma {:induction false} ScanSame(c: ServerState, f: ServerState, n: nat)
    requires Refines(c, f) && Contiguous(c.log) && Contiguous(f.log)
    ensures ScanDown(c, n) == ScanDown(f, n)
    decreases n
  {
    if n > f.commitIndex {
      hide Compacted, Contiguous, Rooted, TermAt, CountAtLeast;
      CompactedAt(f.log, BaseIndex(c.log), n);
      ScanSame(c, f, n - 1);
    }
  }

  lemma AdvanceRefines(c: ServerState, f: ServerState, saved: bool)
    requires Refines(c, f)
    ensures Contiguous(c.log) && Contiguous(f.log)
    ensures Refines(AdvanceCommit(c, saved), AdvanceCommit(f, saved))
  {
    hide Compacted, Rooted, ScanDown, ApplyCommitted;
    RefinesLogs(c, f);
    ScanSame(c, f, LastIndex(f.log));
    if f.role == Leader {
      var n := ScanDown(f, LastIndex(f.log));
      ScanBound(f);
      ApplyRefines(c.(commitIndex := n), f.(commitIndex := n), saved);
    }
  }

  lemma ScanBound(f: ServerState)
    requires Rooted(f.log) && Contiguous(f.log) && f.commitIndex < |f.log|
    ensures f.commitIndex <= ScanDown(f, LastIndex(f.log)) < |f.log|
  {
  }

  lemma AppendedRefines(c: ServerState, f: ServerState, e: LogEntry)
    requires Refines(c, f) && e.index == |f.log|
    ensures Rooted(f.log + [e]) && c.log + [e] == Compacted(f.log + [e], BaseIndex(c.log))
  {
    var base := BaseIndex(c.log);
    if base > 0 {
      assert (f.log + [e])[base + 1..] == f.log[base + 1..] + [e];
    }
  }

  // Taking the lead, proposing, and hearing replies.

  lemma LeadRefines(c: ServerState, f: ServerState, saved: bool)
    requires Refines(c, f) && Contiguous(c.log) && Contiguous(f.log)
    ensures Refines(BecomeLeader(c, saved), BecomeLeader(f, saved))
  {
    hide Compacted, Rooted, AdvanceCommit, SetAll;
    RefinesLogs(c, f);
    var e := LogEntry(f.term, |f.log|, None);
    AppendedRefines(c, f, e);
    var f1 := Persist(f.(role := Leader, leaderId := f.id,
                         nextIndex := SetAll(f.nextIndex, f.peers, |f.log|)[f.id := |f.log| + 1],
                         matchIndex := SetAll(f.matchIndex, f.peers, 0)[f.id := |f.log|], log := f.log + [e]));
    var c1 := Persist(c.(role := Leader, leaderId := f.id, nextIndex := f1.nextIndex, matchIndex := f1.matchIndex, log := c.log + [e]));
    AdvanceRefines(c1, f1, saved);
  }

  lemma SubmitRefines(c: ServerState, f: ServerState, cmd: Option<Str>, saved: bool)
    requires Refines(c, f) && Contiguous(c.log) && Contiguous(f.log)
    ensures Refines(Submit(c, cmd, saved), Submit(f, cmd, saved))
  {
    hide Compacted, Rooted, AdvanceCommit;
    RefinesLogs(c, f);
    var e := LogEntry(f.term, |f.log|, cmd);
    AppendedRefines(c, f, e);
    var f1 := Persist(f.(log := f.log + [e], matchIndex := f.matchIndex[f.id := |f.log|]));
    var c1 := Persist(c.(log := c.log + [e], matchIndex := f1.matchIndex));
    AdvanceRefines(c1, f1, saved);
  }

  lemma ReplyRefines(c: ServerState, f: ServerState, peer: NodeId, reqTerm: nat, sent: nat, r: AppendReply, saved: bool)
    requires Refines(c, f) && Contiguous(c.log) && Contiguous(f.log)
    ensures Refines(HandleAppendReply(c, peer, reqTerm, sent, r, saved), HandleAppendReply(f, peer, reqTerm, sent, r, saved))
  {
    hide Compacted, Rooted, AdvanceCommit;
    var m := f.matchIndex[peer := sent];
    var n := f.nextIndex[peer := sent + 1];
    AdvanceRefines(c, f, saved);
    AdvanceRefines(c.(matchIndex := m, nextIndex := n), f.(matchIndex := m, nextIndex := n), saved);
  }

  /** What a request takes from the log. */
  ghost function Carried(log: seq<LogEntry>, next: nat): (Option<nat>, seq<LogEntry>)
    requires Contiguous(log) && BaseIndex(log) < next
  {
    (TermAt(log, next - 1), if LastIndex(log) >= next then log[next - BaseIndex(log)..] else [])
  }

  lemma BuildShape(s: ServerState, peer: NodeId)
    requires Contiguous(s.log)
    ensures BuildAppend(s, peer) ==
      if s.role != Leader || NextFor(s, peer) <= BaseIndex(s.log) then None
      else
        var (t, entries) := Carried(s.log, NextFor(s, peer));
        Some(AppendArgs(s.term, s.id, NextFor(s, peer) - 1, if t == None then 0 else t.value, entries, s.commitIndex))
  {
    hide TermAt;
  }

  lemma CarriedSame(full: seq<LogEntry>, base: nat, next: nat)
    requires Rooted(full) && base < |full| && base < next
    ensures Contiguous(full) && Contiguous(Compacted(full, base)) && BaseIndex(full) == 0
      && BaseIndex(Compacted(full, base)) == base
    ensures Carried(Compacted(full, base), next) == Carried(full, next)
  {
    hide TermAt, Compacted, Contiguous, Rooted, LastIndex, BaseIndex, Carried;
    CompactedLog(full, base);
    CompactedAt(full, base, next - 1);
    TailSame(full, base, next);
    CarriedIs(full, next, if next < |full| then full[next..] else []);
    CarriedIs(Compacted(full, base), next, if next < |full| then full[next..] else []);
  }

  lemma CarriedIs(log: seq<LogEntry>, next: nat, rest: seq<LogEntry>)
    requires Contiguous(log) && BaseIndex(log) < next
    requires rest == if LastIndex(log) >= next then log[next - BaseIndex(log)..] else []
    ensures Carried(log, next) == (TermAt(log, next - 1), rest)
  {
    hide TermAt;
  }

  /** A compacted leader builds the full leader's request, unless the peer needs what was discarded. */
  lemma BuildRefines(c: ServerState, f: ServerState, peer: NodeId)
    requires Refines(c, f)
    ensures Contiguous(c.log) && Contiguous(f.log)
    ensures BuildAppend(c, peer) == if NextFor(f, peer) > BaseIndex(c.log) then BuildAppend(f, peer) else None
  {
    hide Contiguous, Rooted, Carried, Compacted, BuildAppend;
    RefinesLogs(c, f);
    BuildShape(c, peer);
    BuildShape(f, peer);
    if NextFor(f, peer) > BaseIndex(c.log) {
      CarriedSame(f.log, BaseIndex(c.log), NextFor(f, peer));
    }
  }

  lemma TailSame(full: seq<LogEntry>, base: nat, next: nat)
    requires Rooted(full) && base < next && base < |full|
    ensures |Compacted(full, base)| == |full| - base
    ensures next < |full| ==> Compacted(full, base)[next - base..] == full[next..]
  {
  }

  // ----- compaction and snapshots -----

  lemma CompactTwice(full: seq<LogEntry>, base: nat, idx: nat)
    requires Rooted(full) && base < idx < |full|
    ensures Contiguous(Compacted(full, base))
      && BaseIndex(Compacted(full, base)) <= idx <= LastIndex(Compacted(full, base))
    ensures TermAt(Compacted(full, base), idx) == Some(full[idx].term)
    ensures DiscardThrough(Compacted(full, base), idx, full[idx].term) == Compacted(full, idx)
  {
    CompactedLog(full, base);
    CompactedAt(full, base, idx);
    assert Compacted(full, base)[idx - base + 1..] == full[idx + 1..];
  }

  /** Compacting, wherever it stops, is a stuttering step of the full server. */
  lemma CompactionStutters(c: ServerState, f: ServerState, threshold: nat, point: CrashPoint)
    requires Refines(c, f)
    ensures Contiguous(c.log)
    ensures Refines(MaybeCompact(c, threshold, point), f)
  {
    hide Compacted, Rooted, DiscardThrough;
    RefinesLogs(c, f);
    var base := BaseIndex(c.log);
    if base < c.lastApplied {
      CompactTwice(f.log, base, c.lastApplied);
      CompactedLog(f.log, c.lastApplied);
    }
  }

  /** The whole log a snapshot stands for. */
  ghost predicate StandsFor(a: InstallArgs, prefix: seq<LogEntry>) {
    && Rooted(prefix) && Contiguous(prefix) && |prefix| == a.lastIndex + 1
    && prefix[a.lastIndex].term == a.lastTerm
    && a.data == Some(Commands(prefix, 0, a.lastIndex))
  }

  /** The AppendEntries that would carry the same prefix entry by entry. */
  function AsAppend(a: InstallArgs, prefix: seq<LogEntry>): AppendArgs
    requires |prefix| > 0
  {
    AppendArgs(a.term, a.leader, 0, 0, prefix[1..], a.lastIndex)
  }

  /** The rule that keeps a matching tail computes what entry-by-entry repair would. */
  lemma RebaseIsOverwrite(full: seq<LogEntry>, base: nat, prefix: seq<LogEntry>, idx: nat)
    requires Rooted(full) && Rooted(prefix) && Matching(full, prefix) && base < |full| && base < idx == |prefix| - 1
    ensures Contiguous(Compacted(full, base))
    ensures
      var r := Overwrite(full, prefix, idx);
      Rooted(r) && idx < |r| && RebaseLog(Compacted(full, base), idx, prefix[idx].term) == Compacted(r, idx)
  {
    CompactedLog(full, base);
    CompactedAt(full, base, idx);
    OverwriteMatches(full, prefix, idx);
    var r := Overwrite(full, prefix, idx);
    if idx < |full| && full[idx].term == prefix[idx].term {
      CompactTwice(full, base, idx);
      assert r == full;
    } else {
      assert r == prefix;
      assert prefix[idx + 1..] == [];
    }
  }

  lemma PrefixEntries(f: ServerState, prefix: seq<LogEntry>, idx: nat)
    requires Rooted(f.log) && Contiguous(f.log) && Rooted(prefix) && Matching(f.log, prefix) && |prefix| == idx + 1
    ensures MatchesPrev(f.log, 0, 0)
    ensures AppendFrom(f.log, 0, prefix[1..]) == Overwrite(f.log, prefix, idx)
  {
    RootedContiguous(f.log);
    AppendFromClosedForm(f.log, prefix, 0, idx);
    assert prefix[0 + 1..idx + 1] == prefix[1..];
  }

  /** What that AppendEntries does to the full server. */
  ghost predicate CarriedOver(f: ServerState, f': ServerState, a: InstallArgs, prefix: seq<LogEntry>)
    requires |prefix| == a.lastIndex + 1 && Contiguous(prefix) && BaseIndex(prefix) == 0
  {
    var newer := a.lastIndex > f.commitIndex;
    && f'.(disk := f.disk, role := f.role) == ObserveTerm(f, a.term).(
      role := f.role, leaderId := a.leader, log := Overwrite(f.log, prefix, a.lastIndex),
      commitIndex := Max(f.commitIndex, a.lastIndex),
      lastApplied := if newer then a.lastIndex else f.lastApplied,
      fed := if newer then Commands(prefix, 0, a.lastIndex) else f.fed)
    && (f'.disk.marker == f.disk.marker || (newer && f'.disk.marker == a.lastIndex))
  }

  lemma PrefixCarried(f: ServerState, a: InstallArgs, prefix: seq<LogEntry>, saved: bool)
    requires Rooted(f.log) && Contiguous(f.log) && f.lastApplied <= f.commitIndex < |f.log|
    requires StandsFor(a, prefix) && Matching(f.log, prefix) && Agree(f.log, prefix, Min(f.commitIndex, a.lastIndex))
    requires !f.stopped && a.term >= f.term && f.fed == Commands(f.log, 0, f.lastApplied)
    ensures Contiguous(prefix) && BaseIndex(prefix) == 0
    ensures CarriedOver(f, HandleAppend(f, AsAppend(a, prefix), saved).0, a, prefix)
    ensures HandleAppend(f, AsAppend(a, prefix), saved).1.term == a.term
  {
    hide ApplyCommitted, AppendFrom, Commands, Overwrite, Rooted, MatchesPrev, Matching;
    var idx := a.lastIndex;
    RootedContiguous(prefix);
    PrefixEntries(f, prefix, idx);
    InstalledLog(f, prefix, idx);
    var r := Overwrite(f.log, prefix, idx);
    RootedContiguous(r);
    var s1 := ObserveTerm(f, a.term);
    var s2 := s1.(role := if s1.role == Candidate then Follower else s1.role, leaderId := a.leader, log := r);
    var s3 := if r != f.log || a.term > f.term then Persist(s2) else s2;
    if idx > f.commitIndex {
      InstalledFed(f, s3.(commitIndex := idx), prefix, idx, saved);
    }
  }

  /**
   InstallSnapshot on a compacted server does what the AppendEntries carrying the whole prefix does
   to the full one.  The two may differ in role only (a snapshot leaves a candidate of the same term
   a candidate) and in how much of an already committed prefix has been applied.
   */
  lemma InstallRefines(c: ServerState, f: ServerState, a: InstallArgs, prefix: seq<LogEntry>, saved: bool)
    requires Refines(c, f) && Contiguous(c.log) && Contiguous(f.log)
    requires StandsFor(a, prefix) && Matching(f.log, prefix) && Agree(f.log, prefix, Min(f.commitIndex, a.lastIndex))
    requires !f.stopped && f.fed == Commands(f.log, 0, f.lastApplied)
    ensures
      var (c', answer) := HandleInstall(c, a);
      var (f', reply) := HandleAppend(f, AsAppend(a, prefix), saved);
      && answer == reply.term
      && Refines(c', f'.(role := c'.role, lastApplied := c'.lastApplied, fed := c'.fed))
      && Contiguous(f'.log) && c'.fed == Commands(f'.log, 0, c'.lastApplied)
      && (a.lastIndex > f.commitIndex ==> c'.fed == f'.fed && c'.lastApplied == f'.lastApplied)
  {
    hide Compacted, HandleAppend, RebaseLog, Commands, Overwrite, Rooted, Matching;
    if a.term < f.term {
      StaleAppend(f, AsAppend(a, prefix), saved);
    } else {
      PrefixCarried(f, a, prefix, saved);
      InstalledLog(f, prefix, a.lastIndex);
      RootedContiguous(Overwrite(f.log, prefix, a.lastIndex));
      InstalledSame(c, f, a, prefix);
    }
  }

  lemma StaleAppend(f: ServerState, a: AppendArgs, saved: bool)
    requires Contiguous(f.log) && a.term < f.term
    ensures HandleAppend(f, a, saved) == (f, AppendReply(f.term, false))
  {
  }

  /** Both servers after the snapshot, the full one with log r. */
  ghost predicate InstalledAs(c: ServerState, f: ServerState, a: InstallArgs, r: seq<LogEntry>)
    requires Contiguous(c.log) && Contiguous(r) && BaseIndex(r) == 0
  {
    var c' := HandleInstall(c, a).0;
    && Refines(c', ObserveTerm(f, a.term).(role := c'.role, leaderId := a.leader, log := r,
         commitIndex := Max(f.commitIndex, a.lastIndex), lastApplied := c'.lastApplied, fed := c'.fed))
    && c'.lastApplied == Max(f.lastApplied, a.lastIndex) <= LastIndex(r) && c'.fed == Commands(r, 0, c'.lastApplied)
    && (a.lastIndex > f.lastApplied ==> SnapshotIndex(c'.disk) == a.lastIndex)
  }

  lemma InstalledSame(c: ServerState, f: ServerState, a: InstallArgs, prefix: seq<LogEntry>)
    requires Refines(c, f) && Contiguous(c.log) && StandsFor(a, prefix) && Matching(f.log, prefix)
    requires Agree(f.log, prefix, Min(f.commitIndex, a.lastIndex)) && a.term >= f.term
    requires Contiguous(f.log) && BaseIndex(f.log) == 0 && f.fed == Commands(f.log, 0, f.lastApplied)
    ensures
      var r := Overwrite(f.log, prefix, a.lastIndex);
      Contiguous(r) && BaseIndex(r) == 0 && InstalledAs(c, f, a, r)
  {
    hide InstalledAs, Refines, Rooted, Matching, Commands, Overwrite, Compacted;
    RefinesBounds(c, f);
    InstalledLog(f, prefix, a.lastIndex);
    RootedContiguous(Overwrite(f.log, prefix, a.lastIndex));
    if a.lastIndex > f.lastApplied {
      InstalledNew(c, f, a, prefix);
    } else {
      OverwriteCovered(f.log, prefix, a.lastIndex);
      InstalledOld(c, f, a);
    }
  }

  lemma RefinesBounds(c: ServerState, f: ServerState)
    requires Refines(c, f)
    ensures Rooted(f.log) && |c.log| > 0 && BaseIndex(c.log) <= f.lastApplied <= f.commitIndex < |f.log|
    ensures c.lastApplied == f.lastApplied && c.term == f.term
  {
  }

  lemma InstalledOld(c: ServerState, f: ServerState, a: InstallArgs)
    requires Refines(c, f) && Contiguous(c.log) && Contiguous(f.log) && BaseIndex(f.log) == 0
    requires a.lastIndex <= f.lastApplied && a.term >= f.term && f.fed == Commands(f.log, 0, f.lastApplied)
    ensures InstalledAs(c, f, a, f.log)
  {
    hide Compacted, RebaseLog, Commands, Contiguous;
    RefinesLogs(c, f);
  }

  lemma InstalledNew(c: ServerState, f: ServerState, a: InstallArgs, prefix: seq<LogEntry>)
    requires Refines(c, f) && Contiguous(c.log) && StandsFor(a, prefix) && Matching(f.log, prefix)
    requires Agree(f.log, prefix, Min(f.commitIndex, a.lastIndex)) && a.term >= f.term && a.lastIndex > f.lastApplied
    ensures
      var r := Overwrite(f.log, prefix, a.lastIndex);
      Contiguous(r) && BaseIndex(r) == 0 && InstalledAs(c, f, a, r)
  {
    hide Compacted, RebaseLog, Commands, Overwrite, Rooted, Matching, Contiguous;
    var idx := a.lastIndex;
    var r := Overwrite(f.log, prefix, idx);
    RefinesLogs(c, f);
    InstalledLog(f, prefix, idx);
    RootedContiguous(r);
    RebaseIsOverwrite(f.log, BaseIndex(c.log), prefix, idx);
    CompactedLog(r, idx);
    CommandsAgree(r, prefix, idx);
  }

  lemma OverwriteCovered(log: seq<LogEntry>, prefix: seq<LogEntry>, idx: nat)
    requires |prefix| == idx + 1 && idx < |log| && Agree(log, prefix, idx)
    ensures Overwrite(log, prefix, idx) == log
  {
    assert log[idx] == log[..idx + 1][idx] == prefix[..idx + 1][idx] == prefix[idx];
  }

  lemma InstalledLog(f: ServerState, prefix: seq<LogEntry>, idx: nat)
    requires Rooted(f.log) && Rooted(prefix) && Matching(f.log, prefix) && |prefix| == idx + 1
    requires f.lastApplied <= f.commitIndex < |f.log| && Agree(f.log, prefix, Min(f.commitIndex, idx))
    ensures
      var r := Overwrite(f.log, prefix, idx);
      Rooted(r) && |r| > Max(f.commitIndex, idx) && Agree(r, prefix, idx) && Agree(f.log, r, f.commitIndex)
  {
    OverwriteMatches(f.log, prefix, idx);
    var r := Overwrite(f.log, prefix, idx);
    if idx <= f.commitIndex {
      assert f.log[idx] == f.log[..idx + 1][idx] == prefix[..idx + 1][idx] == prefix[idx];
    } else if r != f.log {
      assert r == prefix;
    }
  }

  lemma InstalledFed(f: ServerState, s: ServerState, prefix: seq<LogEntry>, idx: nat, saved: bool)
    requires Rooted(f.log) && Contiguous(f.log) && Rooted(prefix) && Contiguous(prefix) && |prefix| == idx + 1
    requires Rooted(s.log) && Contiguous(s.log) && f.lastApplied <= f.commitIndex < idx < |s.log|
      && s.commitIndex == idx
    requires f.commitIndex < |f.log|
    requires s.lastApplied == f.lastApplied && s.fed == f.fed && f.fed == Commands(f.log, 0, f.lastApplied)
    requires Agree(s.log, prefix, idx) && Agree(f.log, s.log, f.commitIndex)
    ensures
      var r := ApplyCommitted(s, saved);
      && r == s.(lastApplied := idx, fed := Commands(prefix, 0, idx), disk := r.disk)
      && (r.disk.marker == s.disk.marker || r.disk.marker == idx)
  {
    var k := f.lastApplied;
    assert f.log[..k + 1] == f.log[..f.commitIndex + 1][..k + 1] == s.log[..f.commitIndex + 1][..k + 1] == s.log[..k + 1];
    CommandsAgree(f.log, s.log, k);
    CommandsAgree(s.log, prefix, idx);
    CommandsSplit(s.log, 0, k, idx);
  }

  // ----- the leader that sent a snapshot -----

  lemma {:induction false} CountAbove(peers: seq<NodeId>, m: map<NodeId, nat>, peer: NodeId, last: nat, n: nat)
    requires last < n
    ensures CountAtLeast(peers, if last > Get(m, peer) then m[peer := last] else m, n) == CountAtLeast(peers, m, n)
    decreases |peers|
  {
    if peers != [] {
      CountAbove(peers[..|peers| - 1], m, peer, last, n);
    }
  }

  lemma {:induction false} ScanAbove(s: ServerState, s': ServerState, peer: NodeId, last: nat, n: nat)
    requires Contiguous(s.log) && last <= s.commitIndex
    requires s' == s.(matchIndex := if last > Get(s.matchIndex, peer) then s.matchIndex[peer := last] else s.matchIndex,
                      nextIndex := s'.nextIndex)
    ensures ScanDown(s', n) == ScanDown(s, n)
    decreases n
  {
    if n > s.commitIndex {
      hide CountAtLeast, Contiguous;
      CountAbove(s.peers, s.matchIndex, peer, last, n);
      ScanAbove(s, s', peer, last, n - 1);
    }
  }

  /**
   A reply to a snapshot cannot commit anything: the snapshot lies below the commit index, so counting the
   follower for it, even one that refused it, moves the commit index no further than it would go anyway.
   */
  lemma SnapshotReplyCommitsNothing(s: ServerState, peer: NodeId, last: nat, saved: bool)
    requires Contiguous(s.log) && last <= s.commitIndex && s.role == Leader
    ensures
      var s' := HandleInstallReply(s, peer, s.term, last, s.term, saved);
      && s'.commitIndex == AdvanceCommit(s, saved).commitIndex
      && s'.lastApplied == AdvanceCommit(s, saved).lastApplied && s'.fed == AdvanceCommit(s, saved).fed
  {
    hide ScanDown, Commands;
    var s1 := s.(matchIndex := if last > Get(s.matchIndex, peer) then s.matchIndex[peer := last] else s.matchIndex,
                 nextIndex := if last + 1 > Get(s.nextIndex, peer) then s.nextIndex[peer := last + 1] else s.nextIndex);
    ScanAbove(s, s1, peer, last, LastIndex(s.log));
  }

  /** And it ends the resending: the next request to that follower carries entries again. */
  lemma SnapshotReplyResumes(s: ServerState, peer: NodeId, saved: bool)
    requires Contiguous(s.log) && s.role == Leader && s.snapshot.Some? && s.snapshot.value.lastIndex == BaseIndex(s.log)
    ensures Contiguous(HandleInstallReply(s, peer, s.term, s.snapshot.value.lastIndex, s.term, saved).log)
    ensures BuildAppend(HandleInstallReply(s, peer, s.term, s.snapshot.value.lastIndex, s.term, saved), peer).Some?
  {
    hide ScanDown, Commands, Contiguous;
  }
}
