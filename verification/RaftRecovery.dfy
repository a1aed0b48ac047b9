/**
 Crash-safe recovery: whatever moment of a compaction or of a snapshot installation the process
 dies at, Restore rebuilds the state machine by feeding it every committed entry exactly once.
 */
module RaftRecovery {
  import opened Bytes
  import opened RaftLog
  import opened RaftState
  import opened RaftSteps
  import opened RaftCompaction

  /** The three files together stand for the log full: the snapshot never lags the truncated log. */
  ghost predicate StandsForLog(disk: Disk, full: seq<LogEntry>, base: nat) {
    && Rooted(full) && Contiguous(full) && BaseIndex(full) == 0 && LastIndex(full) == |full| - 1
    && base <= SnapshotIndex(disk) < |full|
    && disk.state.Some? && disk.state.value.log == Compacted(full, base)
    && (disk.snapshot.Some? ==>
          && disk.snapshot.value.lastTerm == full[disk.snapshot.value.lastIndex].term
          && disk.snapshot.value.fed == Commands(full, 0, disk.snapshot.value.lastIndex))
  }

  /** How far recovery replays. */
  ghost function RecoveredTo(disk: Disk, full: seq<LogEntry>): nat
    requires |full| > 0
  {
    Max(SnapshotIndex(disk), Min(disk.marker, |full| - 1))
  }

  lemma LoadedLog(s: ServerState, full: seq<LogEntry>, base: nat)
    requires StandsForLog(s.disk, full, base) && s.log == Compacted(full, base)
    requires s.fed == [] && s.commitIndex == 0 && s.lastApplied == 0
    ensures Contiguous(s.log)
    ensures
      var si, r := SnapshotIndex(s.disk), LoadSnapshot(s);
      && r.log == Compacted(full, si) && r.commitIndex == si && r.lastApplied == si
      && r.fed == Commands(full, 0, si) && r.disk == s.disk && r.term == s.term && r.votedFor == s.votedFor
      && r.role == s.role
  {
    CompactedLog(full, base);
    if s.disk.snapshot.Some? {
      var sn := s.disk.snapshot.value;
      if base < sn.lastIndex {
        CompactTwice(full, base, sn.lastIndex);
      }
    }
  }

  lemma DiskLog(disk: Disk, full: seq<LogEntry>, base: nat)
    requires StandsForLog(disk, full, base)
    ensures disk.state.Some? && Contiguous(disk.state.value.log)
  {
    CompactedLog(full, base);
  }

  /**
   Restore applies the full log through max(snapshot index, min(marker, last index)): the snapshot's
   entries once, the replayed ones once, none skipped.
   */
  lemma RecoveryExact(s: ServerState, full: seq<LogEntry>, base: nat)
    requires StandsForLog(s.disk, full, base)
    ensures s.disk.state.Some? && Contiguous(s.disk.state.value.log)
    ensures
      var r, k := Restart(s), RecoveredTo(s.disk, full);
      && r.log == Compacted(full, SnapshotIndex(s.disk))
      && r.lastApplied == r.commitIndex == k < |full| && r.fed == Commands(full, 0, k)
      && r.term == s.disk.state.value.term && r.votedFor == s.disk.state.value.votedFor && r.role == Follower
      && r.disk == s.disk
  {
    hide Compacted, Commands, LoadSnapshot, Rooted, Contiguous;
    DiskLog(s.disk, full, base);
    var d := s.disk.state.value;
    var n := NewServer(s.id, s.peers, s.disk).(term := d.term, votedFor := d.votedFor, log := d.log);
    LoadedLog(n, full, base);
    var si := SnapshotIndex(s.disk);
    CompactedLog(full, si);
    var upto := ReplayTo(Compacted(full, si), s.disk.marker);
    CommandsCompacted(full, si, si, upto);
    CommandsSplit(full, 0, si, upto);
  }

  // ----- compaction, killed anywhere -----

  /** A running server whose disk and memory both stand for full. */
  ghost predicate Backed(s: ServerState, full: seq<LogEntry>) {
    && |s.log| > 0
    && StandsForLog(s.disk, full, BaseIndex(s.log))
    && s.log == Compacted(full, BaseIndex(s.log))
    && SnapshotIndex(s.disk) <= s.lastApplied < |full|
    && s.fed == Commands(full, 0, s.lastApplied)
  }

  /** Before, between or after the two saves, the disk stands for the same log; only how much of it is a snapshot moves. */
  lemma CompactionKeepsDisk(s: ServerState, full: seq<LogEntry>, threshold: nat, point: CrashPoint)
    requires Backed(s, full)
    ensures Contiguous(s.log)
    ensures
      var r := MaybeCompact(s, threshold, point);
      && StandsForLog(r.disk, full, if point == Finished && WantsCompaction(s, threshold) then s.lastApplied else BaseIndex(s.log))
      && SnapshotIndex(r.disk) == (if point != BeforeSave && WantsCompaction(s, threshold) then s.lastApplied else SnapshotIndex(s.disk))
      && r.disk.marker == s.disk.marker
      && (point == Finished ==> Backed(r, full))
  {
    hide Compacted, Commands, Rooted, DiscardThrough;
    var base := BaseIndex(s.log);
    CompactedLog(full, base);
    if base < s.lastApplied {
      CompactTwice(full, base, s.lastApplied);
      CompactedAt(full, base, s.lastApplied);
      CompactedLog(full, s.lastApplied);
    }
  }

  /** Killed at any point of a compaction, the server comes back at least where it would have without it. */
  lemma CrashDuringCompaction(s: ServerState, full: seq<LogEntry>, threshold: nat, point: CrashPoint)
    requires Backed(s, full)
    ensures Contiguous(s.log)
    ensures
      var died := MaybeCompact(s, threshold, point);
      && died.disk.state.Some? && Contiguous(died.disk.state.value.log)
      && var r, k := Restart(died), RecoveredTo(died.disk, full);
         && k < |full| && r.fed == Commands(full, 0, k) && r.lastApplied == r.commitIndex == k
         && RecoveredTo(s.disk, full) <= k <= Max(s.lastApplied, s.disk.marker)
         && r.log == Compacted(full, SnapshotIndex(died.disk))
  {
    hide Compacted, Commands, MaybeCompact, Restart, Rooted, Contiguous, WantsCompaction;
    CompactionKeepsDisk(s, full, threshold, point);
    var died := MaybeCompact(s, threshold, point);
    RecoveryExact(died, full, if point == Finished && WantsCompaction(s, threshold) then s.lastApplied else BaseIndex(s.log));
  }

  /** The recovered server refines the one that kept its whole log and applied the same prefix. */
  lemma RecoveredRefines(s: ServerState, full: seq<LogEntry>, base: nat)
    requires StandsForLog(s.disk, full, base) && s.disk.marker < |full|
    ensures s.disk.state.Some? && Contiguous(s.disk.state.value.log)
    ensures
      var r := Restart(s);
      Refines(r, r.(log := full, fed := Commands(full, 0, r.lastApplied)))
  {
    hide Commands;
    RecoveryExact(s, full, base);
    CompactedLog(full, SnapshotIndex(s.disk));
  }

  // ----- InstallSnapshot, killed between its two saves -----

  /** The snapshot file is already the new one, the state file still the old one. */
  function HalfInstalled(s: ServerState, a: InstallArgs): ServerState
    requires a.data.Some?
  {
    s.(disk := s.disk.(snapshot := Some(Snapshot(a.lastIndex, a.lastTerm, a.data.value))))
  }

  /** Recovery then finishes the installation: same log, same machine, same indices. */
  lemma CrashDuringInstall(s: ServerState, a: InstallArgs)
    requires Contiguous(s.log) && a.data.Some? && a.term >= s.term
    requires BaseIndex(s.log) < a.lastIndex && s.lastApplied < a.lastIndex
    requires s.disk.state.Some? && s.disk.state.value.log == s.log
    ensures
      var done, half := HandleInstall(s, a).0, HalfInstalled(s, a);
      && done.disk.state.Some? && Contiguous(done.disk.state.value.log)
      && half.disk.state.Some? && Contiguous(half.disk.state.value.log)
      && var r, h := Restart(done), Restart(half);
         && h.log == r.log && h.fed == r.fed && h.lastApplied == r.lastApplied && h.commitIndex == r.commitIndex
         && r.log == done.log
  {
    hide Commands, RebaseLog;
    var log := RebaseLog(s.log, a.lastIndex, a.lastTerm);
    assert HandleInstall(s, a).0.log == log;
  }
}
