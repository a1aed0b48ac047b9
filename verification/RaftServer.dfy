/**
 The Raft server as the source has it: an object whose handlers update its fields in place.
 Each method is proved to compute the corresponding function of RaftState.dfy, so everything
 proved about the protocol holds of these bodies.
 */
module RaftServer {
  import opened Bytes
  import opened RaftLog
  import opened RaftState

  class Server {
    const id: NodeId
    var peers: seq<NodeId>
    var currentTerm: nat
    var votedFor: Option<NodeId>
    var log: seq<LogEntry>
    var commitIndex: nat
    var lastApplied: nat
    var nextIndex: map<NodeId, nat>
    var matchIndex: map<NodeId, nat>
    var role: Role
    var leaderId: NodeId
    var votes: set<NodeId>
    var stopped: bool
    var fed: seq<LogEntry>
    var snapshot: Option<Snapshot>
    var disk: Disk

    function State(): ServerState
      reads this
    {
      ServerState(id, peers, currentTerm, votedFor, log, commitIndex, lastApplied, nextIndex, matchIndex,
                  role, leaderId, votes, stopped, fed, snapshot, disk)
    }

    ghost predicate Valid()
      reads this
    {
      |log| > 0 && Contiguous(log) && (disk.state.Some? ==> Contiguous(disk.state.value.log))
    }

    constructor (id: NodeId, peers: seq<NodeId>, disk: Disk)
      requires disk.state.Some? ==> Contiguous(disk.state.value.log)
      ensures Valid() && State() == NewServer(id, peers, disk)
    {
      this.id, this.peers, this.disk := id, peers, disk;
      currentTerm, votedFor, log := 0, None, [SENTINEL];
      commitIndex, lastApplied, nextIndex, matchIndex := 0, 0, map[], map[];
      role, leaderId, votes, stopped, fed, snapshot := Follower, [], {}, false, [], None;
    }

    method Persist()
      requires Valid()
      modifies this`disk
      ensures Valid() && State() == RaftState.Persist(old(State()))
    {
      disk := disk.(state := Some(Durable(currentTerm, votedFor, log)));
    }

    method BecomeFollower(term: nat)
      requires Valid()
      modifies this`role, this`currentTerm, this`votedFor
      ensures Valid() && State() == RaftState.BecomeFollower(old(State()), term)
    {
      role := Follower;
      if term > currentTerm {
        currentTerm := term;
        votedFor := None;
      }
    }

    method ObserveTerm(t: nat) returns (steppedDown: bool)
      requires Valid()
      modifies this`role, this`currentTerm, this`votedFor
      ensures Valid() && State() == RaftState.ObserveTerm(old(State()), t)
      ensures steppedDown <==> t > old(currentTerm)
    {
      steppedDown := t > currentTerm;
      if steppedDown {
        BecomeFollower(t);
      }
    }

    /** The loop of appendFrom, truncating and extending the log in place. */
    method AppendFrom(prev: nat, entries: seq<LogEntry>) returns (changed: bool)
      requires Contiguous(log) && prev <= LastIndex(log)
      modifies this`log
      ensures |log| > 0 && Contiguous(log) && log == RaftLog.AppendFrom(old(log), prev, entries)
      ensures changed <==> log != old(log)
    {
      hide AppendOne;
      changed := false;
      for i := 0 to |entries|
        invariant Contiguous(log) && prev + i <= LastIndex(log)
        invariant log == RaftLog.AppendFrom(old(log), prev, entries[..i])
        invariant if changed then Diverged(old(log), log) && LastIndex(log) == prev + i else log == old(log)
      {
        var idx, e := prev + i + 1, entries[i];
        assert entries[..i + 1][..i] == entries[..i];
        var stored := AppendEntry(idx, e);
        if stored {
          DivergedStep(old(log), RaftLog.AppendFrom(old(log), prev, entries[..i]), changed, idx, e);
          changed := true;
        }
      }
      assert entries[..|entries|] == entries;
    }

    /** The body of that loop: skip, keep, or truncate and append. */
    method AppendEntry(idx: nat, e: LogEntry) returns (stored: bool)
      requires Contiguous(log) && idx <= LastIndex(log) + 1
      modifies this`log
      ensures log == AppendOne(old(log), idx, e)
      ensures stored == (idx > BaseIndex(old(log)) && TermAt(old(log), idx) != Some(e.term))
      ensures !stored ==> log == old(log)
    {
      if idx <= BaseIndex(log) {
        return false;
      }
      if idx <= LastIndex(log) {
        if log[idx - BaseIndex(log)].term == e.term {
          return false;
        }
        log := log[..idx - BaseIndex(log)];
      }
      log := log + [LogEntry(e.term, idx, e.command)];
      return true;
    }

    /** now holds something that was not in before. */
    static ghost predicate Diverged(before: seq<LogEntry>, now: seq<LogEntry>) {
      !(now <= before)
    }

    /** Once a log has taken a new entry, appending to it cannot bring the old log back. */
    static lemma DivergedStep(first: seq<LogEntry>, log: seq<LogEntry>, changed: bool, idx: nat, e: LogEntry)
      requires Contiguous(log) && BaseIndex(log) < idx <= LastIndex(log) + 1
      requires if changed then Diverged(first, log) && LastIndex(log) + 1 == idx else log == first
      requires TermAt(log, idx) != Some(e.term)
      ensures Diverged(first, AppendOne(log, idx, e)) && LastIndex(AppendOne(log, idx, e)) == idx
    {
      var r := AppendOne(log, idx, e);
      if changed {
        assert log <= r;
      } else if idx <= LastIndex(log) {
        assert r[idx - BaseIndex(log)].term != first[idx - BaseIndex(log)].term;
      }
    }

    /** The loop of applyCommitted; stuck means an entry was missing. */
    method FeedCommitted() returns (stuck: bool)
      requires Contiguous(log)
      modifies this`lastApplied, this`fed
      ensures State() == old(State()).(lastApplied := lastApplied, fed := fed)
      ensures
        if commitIndex <= old(lastApplied) then !stuck && lastApplied == old(lastApplied) && fed == old(fed)
        else if old(lastApplied) + 1 < BaseIndex(log) || old(lastApplied) + 1 > LastIndex(log)
        then stuck && lastApplied == old(lastApplied) && fed == old(fed)
        else
          && lastApplied == Min(commitIndex, LastIndex(log))
          && stuck == (commitIndex > LastIndex(log))
          && fed == old(fed) + Commands(log, old(lastApplied), lastApplied)
    {
      hide Commands;
      stuck := false;
      ghost var lo := lastApplied;
      while commitIndex > lastApplied
        invariant lo <= lastApplied
        invariant lastApplied == lo ==> fed == old(fed)
        invariant lastApplied > lo ==>
          && BaseIndex(log) <= lo + 1 && lastApplied <= commitIndex && lastApplied <= LastIndex(log)
          && fed == old(fed) + Commands(log, lo, lastApplied)
      {
        if BaseIndex(log) <= lo + 1 && lastApplied < LastIndex(log) {
          CommandsStep(log, lo, lastApplied);
        }
        lastApplied := lastApplied + 1;
        match EntryAt(log, lastApplied) {
          case None =>
            lastApplied := lastApplied - 1;
            return true;
          case Some(e) =>
            if e.command != None {
              fed := fed + [e];
            }
        }
      }
    }

    method ApplyCommitted(saved: bool)
      requires Valid()
      modifies this`lastApplied, this`fed, this`disk
      ensures Valid() && State() == RaftState.ApplyCommitted(old(State()), saved)
    {
      var stuck := FeedCommitted();
      if !stuck && saved && lastApplied > 0 {
        disk := disk.(marker := lastApplied);
      }
    }

    /** Accepting a leader of the current or a later term. */
    method AcceptLeader(a: AppendArgs) returns (termChanged: bool)
      requires Valid() && a.term >= currentTerm
      modifies this`role, this`currentTerm, this`votedFor, this`leaderId
      ensures Valid() && termChanged == (a.term > old(currentTerm))
      ensures
        var s1 := RaftState.ObserveTerm(old(State()), a.term);
        State() == s1.(role := if s1.role == Candidate then Follower else s1.role, leaderId := a.leader)
    {
      termChanged := ObserveTerm(a.term);
      if role == Candidate && a.term == currentTerm {
        role := Follower;
      }
      leaderId := a.leader;
    }

    /** Receiver rules 3 to 5. */
    method ReceiveEntries(a: AppendArgs, termChanged: bool, saved: bool)
      requires Valid() && MatchesPrev(log, a.prevIndex, a.prevTerm)
      modifies this`log, this`disk, this`commitIndex, this`lastApplied, this`fed
      ensures Valid()
      ensures a.prevIndex <= LastIndex(old(log))
      ensures
        var s3 := old(State()).(log := RaftLog.AppendFrom(old(log), a.prevIndex, a.entries));
        var s4 := if s3.log != old(log) || termChanged then RaftState.Persist(s3) else s3;
        State() == if a.leaderCommit > s4.commitIndex
                   then RaftState.ApplyCommitted(s4.(commitIndex := Min(a.leaderCommit, a.prevIndex + |a.entries|)), saved)
                   else s4
    {
      hide Contiguous, RaftLog.AppendFrom, RaftState.ApplyCommitted, MatchesPrev;
      MatchesPrevInRange(log, a.prevIndex, a.prevTerm);
      var changed := AppendFrom(a.prevIndex, a.entries);
      if changed || termChanged {
        Persist();
      }
      if a.leaderCommit > commitIndex {
        commitIndex := Min(a.leaderCommit, a.prevIndex + |a.entries|);
        ApplyCommitted(saved);
      }
    }

    method AppendEntries(a: AppendArgs, saved: bool) returns (r: AppendReply)
      requires Valid()
      modifies this
      ensures Valid() && (State(), r) == HandleAppend(old(State()), a, saved)
    {
      hide Contiguous, RaftLog.AppendFrom, RaftState.ApplyCommitted, MatchesPrev;
      if stopped || a.term < currentTerm {
        return AppendReply(currentTerm, false);
      }
      var termChanged := AcceptLeader(a);
      if !MatchesPrev(log, a.prevIndex, a.prevTerm) {
        if termChanged {
          Persist();
        }
        return AppendReply(currentTerm, false);
      }
      ReceiveEntries(a, termChanged, saved);
      return AppendReply(currentTerm, true);
    }

    method RequestVote(a: VoteArgs, recent: bool) returns (r: VoteReply)
      requires Valid()
      modifies this
      ensures Valid() && (State(), r) == HandleVote(old(State()), a, recent)
    {
      if stopped || a.term < currentTerm {
        return VoteReply(currentTerm, false);
      }
      if leaderId != [] && role == Follower && recent {
        return VoteReply(currentTerm, false);
      }
      var termChanged := ObserveTerm(a.term);
      var alreadyVoted := votedFor != None && votedFor != Some(a.candidate);
      if alreadyVoted || !UpToDate(a.lastIndex, a.lastTerm, log) {
        if termChanged {
          Persist();
        }
        return VoteReply(currentTerm, false);
      }
      votedFor := Some(a.candidate);
      Persist();
      return VoteReply(currentTerm, true);
    }

    method StartElection() returns (a: VoteArgs)
      requires Valid()
      modifies this
      ensures Valid() && State() == RaftState.StartElection(old(State())) && a == CampaignArgs(State())
    {
      role := Candidate;
      currentTerm := currentTerm + 1;
      votedFor := Some(id);
      votes := {id};
      Persist();
      a := VoteArgs(currentTerm, id, LastIndex(log), LastTerm(log));
    }

    method OnVoteReply(from: NodeId, reqTerm: nat, r: VoteReply)
      requires Valid()
      modifies this
      ensures Valid() && State() == HandleVoteReply(old(State()), from, reqTerm, r)
    {
      if r.term > currentTerm {
        BecomeFollower(r.term);
        Persist();
        return;
      }
      var stale := currentTerm != reqTerm || role != Candidate;
      if stale || !r.granted {
        return;
      }
      votes := votes + {from};
    }

    /** The loop of becomeLeader over the peers. */
    method ResetProgress(next: nat)
      modifies this`nextIndex, this`matchIndex
      ensures nextIndex == SetAll(old(nextIndex), peers, next)
      ensures matchIndex == SetAll(old(matchIndex), peers, 0)
    {
      var nexts, matches := nextIndex, matchIndex;
      for i := 0 to |peers|
        invariant nexts == SetAll(nextIndex, peers[..i], next)
        invariant matches == SetAll(matchIndex, peers[..i], 0)
      {
        assert peers[..i + 1][..i] == peers[..i];
        nexts := nexts[peers[i] := next];
        matches := matches[peers[i] := 0];
      }
      assert peers[..|peers|] == peers;
      nextIndex, matchIndex := nexts, matches;
    }

    /** becomeLeader, called once the tally reaches a majority. */
    method BecomeLeader(saved: bool)
      requires Valid() && CanLead(State())
      modifies this
      ensures Valid() && State() == RaftState.BecomeLeader(old(State()), saved)
    {
      hide AdvanceCommit, SetAll;
      var next := LastIndex(log) + 1;
      ResetProgress(next);
      role, leaderId := Leader, id;
      log := log + [LogEntry(currentTerm, next, None)];
      matchIndex := matchIndex[id := next];
      nextIndex := nextIndex[id := next + 1];
      Persist();
      AdvanceCommitIndex(saved);
    }

    method CountReplicas(n: nat) returns (count: nat)
      ensures count == CountAtLeast(peers, matchIndex, n)
    {
      count := 0;
      for i := 0 to |peers|
        invariant count == CountAtLeast(peers[..i], matchIndex, n)
      {
        assert peers[..i + 1][..i] == peers[..i];
        if Get(matchIndex, peers[i]) >= n {
          count := count + 1;
        }
      }
      assert peers[..|peers|] == peers;
    }

    /** The downward scan for an index of the current term that a majority holds. */
    method FindCommit() returns (n: nat)
      requires Valid()
      ensures n == ScanDown(State(), LastIndex(log))
    {
      hide CountAtLeast;
      n := LastIndex(log);
      while n > commitIndex
        invariant ScanDown(State(), LastIndex(log)) == ScanDown(State(), n)
      {
        if TermAt(log, n) == Some(currentTerm) {
          var count := CountReplicas(n);
          if count >= Majority(|peers|) {
            return;
          }
        }
        n := n - 1;
      }
      n := commitIndex;
    }

    method AdvanceCommitIndex(saved: bool)
      requires Valid()
      modifies this`commitIndex, this`lastApplied, this`fed, this`disk
      ensures Valid() && State() == AdvanceCommit(old(State()), saved)
    {
      hide ScanDown, RaftState.ApplyCommitted, Contiguous;
      if role != Leader {
        return;
      }
      var n := FindCommit();
      if n > commitIndex {
        commitIndex := n;
        ApplyCommitted(saved);
      }
    }

    method Submit(cmd: Option<Str>, saved: bool) returns (accepted: Option<(nat, nat)>)
      requires Valid()
      modifies this
      ensures Valid() && State() == RaftState.Submit(old(State()), cmd, saved)
      ensures accepted == if old(role) != Leader || old(stopped) then None
                          else Some((LastIndex(old(log)) + 1, old(currentTerm)))
    {
      hide AdvanceCommit;
      if role != Leader || stopped {
        return None;
      }
      var idx, term := LastIndex(log) + 1, currentTerm;
      log := log + [LogEntry(term, idx, cmd)];
      matchIndex := matchIndex[id := idx];
      Persist();
      AdvanceCommitIndex(saved);
      return Some((idx, term));
    }

    /** The first half of replicateTo: the request for one peer, if entries can still serve it. */
    method PrepareAppend(peer: NodeId) returns (a: Option<AppendArgs>)
      requires Valid()
      ensures a == BuildAppend(State(), peer)
    {
      if role != Leader {
        return None;
      }
      var next := Get(nextIndex, peer);
      if next < 1 {
        next := 1;
      }
      if next <= BaseIndex(log) {
        return None;
      }
      var prevTerm := 0;
      match TermAt(log, next - 1) {
        case None =>
        case Some(t) => prevTerm := t;
      }
      var entries := [];
      if LastIndex(log) >= next {
        entries := log[next - BaseIndex(log)..];
      }
      return Some(AppendArgs(currentTerm, id, next - 1, prevTerm, entries, commitIndex));
    }

    /** The second half of replicateTo: the reply to a request whose last entry had index sent. */
    method OnAppendReply(peer: NodeId, reqTerm: nat, sent: nat, r: AppendReply, saved: bool)
      requires Valid()
      modifies this
      ensures Valid() && State() == HandleAppendReply(old(State()), peer, reqTerm, sent, r, saved)
    {
      if r.term > currentTerm {
        BecomeFollower(r.term);
        Persist();
        return;
      }
      if role != Leader || currentTerm != reqTerm {
        return;
      }
      if r.success {
        if sent > Get(matchIndex, peer) {
          matchIndex := matchIndex[peer := sent];
          nextIndex := nextIndex[peer := sent + 1];
        }
        AdvanceCommitIndex(saved);
        return;
      }
      if Get(nextIndex, peer) > 1 {
        nextIndex := nextIndex[peer := nextIndex[peer] - 1];
      }
    }

    /** The request sendSnapshotTo builds. */
    method PrepareInstall() returns (r: Option<InstallArgs>)
      ensures r == BuildInstall(State())
    {
      if role != Leader {
        return None;
      }
      match snapshot {
        case None => return None;
        case Some(sn) => return Some(InstallArgs(currentTerm, id, sn.lastIndex, sn.lastTerm, Some(sn.fed)));
      }
    }

    /** The second half of sendSnapshotTo: any reply of the same term counts as having the snapshot. */
    method OnInstallReply(peer: NodeId, reqTerm: nat, last: nat, replyTerm: nat, saved: bool)
      requires Valid()
      modifies this
      ensures Valid() && State() == HandleInstallReply(old(State()), peer, reqTerm, last, replyTerm, saved)
    {
      hide AdvanceCommit;
      if replyTerm > currentTerm {
        BecomeFollower(replyTerm);
        Persist();
        return;
      }
      if role != Leader || currentTerm != reqTerm {
        return;
      }
      if last > Get(matchIndex, peer) {
        matchIndex := matchIndex[peer := last];
      }
      if last + 1 > Get(nextIndex, peer) {
        nextIndex := nextIndex[peer := last + 1];
      }
      AdvanceCommitIndex(saved);
    }

    method DiscardThrough(idx: nat, term: nat)
      requires Valid() && BaseIndex(log) <= idx <= LastIndex(log)
      modifies this`log
      ensures Valid() && log == RaftState.DiscardThrough(old(log), idx, term)
    {
      log := [LogEntry(term, idx, None)] + log[idx - BaseIndex(log) + 1..];
    }

    method Rebase(idx: nat, term: nat)
      requires Valid()
      modifies this`log
      ensures Valid() && log == RebaseLog(old(log), idx, term)
    {
      var boundary := LogEntry(term, idx, None);
      if TermAt(log, idx) == Some(term) {
        DiscardThrough(idx, term);
      } else {
        log := [boundary];
      }
    }

    method InstallSnapshot(a: InstallArgs) returns (replyTerm: nat)
      requires Valid()
      modifies this
      ensures Valid() && (State(), replyTerm) == HandleInstall(old(State()), a)
    {
      hide RebaseLog, Contiguous;
      if a.term < currentTerm {
        return currentTerm;
      }
      var _ := ObserveTerm(a.term);
      leaderId := a.leader;
      ghost var s1 := State();
      assert s1 == RaftState.ObserveTerm(old(State()), a.term).(leaderId := a.leader);
      if a.lastIndex <= BaseIndex(log) || a.lastIndex <= lastApplied || a.data == None {
        return currentTerm;
      }
      AdoptSnapshot(Snapshot(a.lastIndex, a.lastTerm, a.data.value));
      assert State() == s1.(log := log, fed := fed, lastApplied := lastApplied, commitIndex := commitIndex,
                            snapshot := snapshot, disk := disk);
      return currentTerm;
    }

    /** The accepting half of InstallSnapshot: machine, log, markers and disk move together. */
    method AdoptSnapshot(snap: Snapshot)
      requires Valid()
      modifies this`fed, this`log, this`lastApplied, this`commitIndex, this`snapshot, this`disk
      ensures Valid()
      ensures fed == snap.fed && lastApplied == snap.lastIndex && commitIndex == Max(old(commitIndex), snap.lastIndex)
      ensures log == RebaseLog(old(log), snap.lastIndex, snap.lastTerm) && snapshot == Some(snap)
      ensures disk == Disk(Some(Durable(currentTerm, votedFor, log)), old(disk).marker, Some(snap))
    {
      hide RebaseLog, Contiguous;
      Rebase(snap.lastIndex, snap.lastTerm);
      fed, lastApplied, snapshot := snap.fed, snap.lastIndex, Some(snap);
      if commitIndex < snap.lastIndex {
        commitIndex := snap.lastIndex;
      }
      disk := disk.(snapshot := Some(snap));
      disk := disk.(state := Some(Durable(currentTerm, votedFor, log)));
    }

    /** The second locked section of MaybeCompact: drop the prefix, keep the boundary, persist. */
    method Truncate(snap: Snapshot)
      requires Valid() && BaseIndex(log) <= snap.lastIndex <= LastIndex(log)
      modifies this`log, this`snapshot, this`disk
      ensures Valid() && log == RaftState.DiscardThrough(old(log), snap.lastIndex, snap.lastTerm)
        && snapshot == Some(snap)
      ensures disk == old(disk).(state := Some(Durable(currentTerm, votedFor, log)))
    {
      hide RaftState.DiscardThrough, Contiguous;
      DiscardThrough(snap.lastIndex, snap.lastTerm);
      snapshot := Some(snap);
      Persist();
    }

    /** MaybeCompact; point says where the process dies, if it does. */
    method MaybeCompact(threshold: nat, point: CrashPoint) returns (compacted: bool)
      requires Valid()
      modifies this`log, this`snapshot, this`disk
      ensures Valid() && State() == RaftState.MaybeCompact(old(State()), threshold, point)
      ensures compacted <==> point == Finished && WantsCompaction(old(State()), threshold)
    {
      hide RaftState.DiscardThrough;
      var upto := lastApplied;
      if upto <= BaseIndex(log) || |log| - 1 < threshold {
        return false;
      }
      if upto > LastIndex(log) || point == BeforeSave {
        return false;
      }
      var snap := Snapshot(upto, log[upto - BaseIndex(log)].term, fed);
      disk := disk.(snapshot := Some(snap));
      if point == AfterSave {
        return false;
      }
      Truncate(snap);
      return true;
    }

    /** Restore, run once on a new server whose disk survived a crash. */
    method Restore()
      requires Valid()
      modifies this
      ensures Valid() && State() == RaftState.Restore(old(State()))
    {
      hide RaftState.LoadSnapshot, Commands, ReplayTo, Contiguous;
      match disk.state {
        case None =>
        case Some(d) =>
          LoadDurable(d);
          LoadSnapshot();
          Replay();
      }
    }

    method LoadDurable(d: Durable)
      requires Valid() && Contiguous(d.log)
      modifies this`currentTerm, this`votedFor, this`log, this`role, this`commitIndex, this`lastApplied
      ensures Valid()
      ensures State() == old(State()).(term := d.term, votedFor := d.votedFor, log := d.log, role := Follower,
                                       commitIndex := 0, lastApplied := 0)
    {
      currentTerm, votedFor, log, role := d.term, d.votedFor, d.log, Follower;
      commitIndex, lastApplied := 0, 0;
    }

    /** The snapshot half of Restore. */
    method LoadSnapshot()
      requires Valid()
      modifies this`fed, this`log, this`lastApplied, this`commitIndex, this`snapshot
      ensures Valid() && State() == RaftState.LoadSnapshot(old(State()))
    {
      hide RebaseLog;
      match disk.snapshot {
        case None =>
        case Some(snap) =>
          fed, snapshot := snap.fed, Some(snap);
          commitIndex, lastApplied := snap.lastIndex, snap.lastIndex;
          if BaseIndex(log) < snap.lastIndex {
            Rebase(snap.lastIndex, snap.lastTerm);
          }
      }
    }

    /** The replay loop of Restore: every entry between the boundary and the clamped applied marker. */
    method Replay()
      requires Valid()
      modifies this`fed, this`commitIndex, this`lastApplied
      ensures Valid()
      ensures
        var upto := ReplayTo(log, disk.marker);
        State() == old(State()).(fed := old(fed) + Commands(log, BaseIndex(log), upto),
                                 commitIndex := Max(old(commitIndex), upto),
                                 lastApplied := Max(old(lastApplied), upto))
    {
      var prevApplied := disk.marker;
      if prevApplied < BaseIndex(log) {
        prevApplied := BaseIndex(log);
      }
      if prevApplied > LastIndex(log) {
        prevApplied := LastIndex(log);
      }
      for i := BaseIndex(log) to prevApplied
        invariant BaseIndex(log) <= i <= LastIndex(log)
        invariant fed == old(fed) + Commands(log, BaseIndex(log), i)
        invariant commitIndex == old(commitIndex) && lastApplied == old(lastApplied)
      {
        var e := log[i + 1 - BaseIndex(log)];
        if e.command != None {
          fed := fed + [e];
        }
      }
      commitIndex := Max(commitIndex, prevApplied);
      lastApplied := Max(lastApplied, prevApplied);
    }
  }
}
