/**
 Delivery faults are harmless: handling a request twice is handling it once, nothing is answered
 before it is durable, and the commit index retreats only on requests the leader never builds.
 */
module RaftDelivery {
  import opened Bytes
  import opened RaftLog
  import opened RaftState
  import opened RaftCluster
  import opened RaftInvariant
  import opened RaftPreservation
  import opened RaftReplication
  import opened RaftOffers

  // ----- duplicate delivery -----

  /** appendFrom leaves everything through prev alone and ends up holding every entry above the base. */
  lemma {:induction false} AppendFromPlaces(log: seq<LogEntry>, prev: nat, entries: seq<LogEntry>)
    requires Contiguous(log) && prev <= LastIndex(log)
    ensures
      var r := AppendFrom(log, prev, entries);
      && (forall k: nat :: k <= prev ==> EntryAt(r, k) == EntryAt(log, k))
      && (forall i :: 0 <= i < |entries| && prev + i + 1 > BaseIndex(r) ==> TermAt(r, prev + i + 1) == Some(entries[i].term))
    decreases |entries|
  {
    hide AppendOne, EntryAt;
    if entries != [] {
      var n := |entries| - 1;
      AppendFromPlaces(log, prev, entries[..n]);
      var q := AppendFrom(log, prev, entries[..n]);
      AppendOnePlaces(q, prev + n + 1, entries[n]);
      var r := AppendOne(q, prev + n + 1, entries[n]);
      assert AppendFrom(log, prev, entries) == r;
      forall i | 0 <= i < |entries| && prev + i + 1 > BaseIndex(q)
        ensures TermAt(r, prev + i + 1) == Some(entries[i].term)
      {
        if i < n {
          assert entries[..n][i] == entries[i];
          assert EntryAt(r, prev + i + 1) == EntryAt(q, prev + i + 1);
        }
      }
    }
  }

  lemma AppendOnePlaces(log: seq<LogEntry>, idx: nat, e: LogEntry)
    requires Contiguous(log) && idx <= LastIndex(log) + 1
    ensures
      var r := AppendOne(log, idx, e);
      && (forall k: nat :: k < idx ==> EntryAt(r, k) == EntryAt(log, k))
      && (idx > BaseIndex(log) ==> TermAt(r, idx) == Some(e.term))
  {
  }

  lemma AppendFromTwice(log: seq<LogEntry>, prev: nat, prevTerm: nat, entries: seq<LogEntry>)
    requires Contiguous(log) && MatchesPrev(log, prev, prevTerm)
    ensures prev <= LastIndex(log)
    ensures
      var r := AppendFrom(log, prev, entries);
      MatchesPrev(r, prev, prevTerm) && AppendFrom(r, prev, entries) == r
  {
    hide AppendFrom;
    MatchesPrevInRange(log, prev, prevTerm);
    AppendFromPlaces(log, prev, entries);
    var r := AppendFrom(log, prev, entries);
    AppendFromKeepsPresent(r, prev, entries);
    assert EntryAt(r, prev) == EntryAt(log, prev);
  }

  lemma ApplyTwice(s: ServerState, saved: bool, saved': bool)
    requires Contiguous(s.log)
    ensures
      var s1 := ApplyCommitted(s, saved);
      var s2 := ApplyCommitted(s1, saved');
      s2 == s1.(disk := s1.disk.(marker := s2.disk.marker))
  {
    hide Commands;
  }

  ghost function AllButMarker(s: ServerState): ServerState {
    s.(disk := s.disk.(marker := 0))
  }

  /** A duplicated AppendEntries gets the same answer and changes nothing but, at most, the applied marker. */
  lemma DuplicateAppend(s: ServerState, a: AppendArgs, saved: bool, saved': bool)
    requires Contiguous(s.log)
    ensures
      var (s1, r1) := HandleAppend(s, a, saved);
      && Contiguous(s1.log)
      && var (s2, r2) := HandleAppend(s1, a, saved');
         AllButMarker(s2) == AllButMarker(s1) && r2 == r1
  {
    hide Contiguous, AppendFrom, MatchesPrev, ApplyCommitted;
    if !s.stopped && a.term >= s.term && MatchesPrev(s.log, a.prevIndex, a.prevTerm) {
      AppendFromTwice(s.log, a.prevIndex, a.prevTerm, a.entries);
      DuplicateAccepted(s, a, saved, saved');
    }
  }

  lemma ApplyKeepsShape(s: ServerState, saved: bool)
    requires Contiguous(s.log)
    ensures
      var r := ApplyCommitted(s, saved);
      r == s.(lastApplied := r.lastApplied, fed := r.fed, disk := s.disk.(marker := r.disk.marker))
  {
    hide Commands;
  }

  /** What an accepted leader's request does to the term and the log. */
  lemma AppendShape(s: ServerState, a: AppendArgs, saved: bool)
    requires Contiguous(s.log) && !s.stopped && a.term >= s.term
    ensures MatchesPrev(s.log, a.prevIndex, a.prevTerm) ==> a.prevIndex <= LastIndex(s.log)
    ensures
      var (r, reply) := HandleAppend(s, a, saved);
      var ok := MatchesPrev(s.log, a.prevIndex, a.prevTerm);
      && r.term == a.term && !r.stopped && reply == AppendReply(a.term, ok)
      && r.log == if ok then AppendFrom(s.log, a.prevIndex, a.entries) else s.log
  {
    hide AppendFrom, MatchesPrev, ApplyCommitted, Contiguous;
    if MatchesPrev(s.log, a.prevIndex, a.prevTerm) {
      MatchesPrevInRange(s.log, a.prevIndex, a.prevTerm);
      var s2 := ObserveTerm(s, a.term);
      var s3 := s2.(role := if s2.role == Candidate then Follower else s2.role, leaderId := a.leader,
                    log := AppendFrom(s.log, a.prevIndex, a.entries));
      var s4 := if s3.log != s.log || a.term > s.term then Persist(s3) else s3;
      ApplyKeepsShape(s4.(commitIndex := Min(a.leaderCommit, a.prevIndex + |a.entries|)), saved);
    }
  }

  lemma DuplicateAccepted(s: ServerState, a: AppendArgs, saved: bool, saved': bool)
    requires Contiguous(s.log) && !s.stopped && a.term >= s.term && MatchesPrev(s.log, a.prevIndex, a.prevTerm)
    requires a.prevIndex <= LastIndex(s.log)
    requires
      var r := AppendFrom(s.log, a.prevIndex, a.entries);
      MatchesPrev(r, a.prevIndex, a.prevTerm) && AppendFrom(r, a.prevIndex, a.entries) == r
    ensures
      var (s1, r1) := HandleAppend(s, a, saved);
      && Contiguous(s1.log)
      && var (s2, r2) := HandleAppend(s1, a, saved');
         AllButMarker(s2) == AllButMarker(s1) && r2 == r1
  {
    hide AppendFrom, MatchesPrev, ApplyCommitted, Contiguous;
    var (s1, r1) := HandleAppend(s, a, saved);
    if a.leaderCommit > s.commitIndex {
      var log' := AppendFrom(s.log, a.prevIndex, a.entries);
      var s2 := ObserveTerm(s, a.term);
      var s3 := s2.(role := if s2.role == Candidate then Follower else s2.role, leaderId := a.leader, log := log');
      var s4 := if log' != s.log || a.term > s.term then Persist(s3) else s3;
      var s5 := s4.(commitIndex := Min(a.leaderCommit, a.prevIndex + |a.entries|));
      assert s1 == ApplyCommitted(s5, saved);
      ApplyKeepsShape(s5, saved);
      ApplyTwice(s5, saved, saved');
    }
  }

  /** A duplicated RequestVote changes nothing and never revokes a vote, unless the leader-contact window ended in between. */
  lemma DuplicateVote(s: ServerState, a: VoteArgs, recent: bool, recent': bool)
    requires |s.log| > 0
    requires s.leaderId != [] && s.role == Follower && recent ==> recent'
    ensures
      var (s1, r1) := HandleVote(s, a, recent);
      var (s2, r2) := HandleVote(s1, a, recent');
      s2 == s1 && (r1.granted && !recent' ==> r2 == r1)
  {
  }

  /** A duplicated InstallSnapshot changes nothing. */
  lemma DuplicateInstall(s: ServerState, a: InstallArgs)
    requires Contiguous(s.log)
    ensures
      var (s1, t1) := HandleInstall(s, a);
      && Contiguous(s1.log)
      && HandleInstall(s1, a) == (s1, t1)
  {
    hide RebaseLog;
  }

  // ----- durability -----

  /** Term, vote and log are on disk as in memory, unless none of them changed. */
  ghost predicate Written(s: ServerState, s': ServerState) {
    var same := s'.term == s.term && s'.votedFor == s.votedFor && s'.log == s.log;
    || (s'.disk.state == Some(Durable(s'.term, s'.votedFor, s'.log)) && (!same || s.votedFor.Some?))
    || (s'.disk.state == s.disk.state && same)
  }

  /** What every handler is careful about: the disk, the snapshot file, the log's base, and applying in order. */
  ghost predicate Careful(s: ServerState, s': ServerState)
    requires |s.log| > 0
  {
    && s'.id == s.id && Written(s, s') && s'.disk.snapshot == s.disk.snapshot && s'.snapshot == s.snapshot
    && |s'.log| > 0 && BaseIndex(s'.log) == BaseIndex(s.log) && s.lastApplied <= s'.lastApplied
  }

  /** Whatever a handler answers, the term, vote and log it leaves in memory are already on disk. */
  lemma PersistBeforeReply(s: ServerState, saved: bool, append: AppendArgs, vote: VoteArgs, recent: bool,
                           from: NodeId, reqTerm: nat, sent: nat, voteReply: VoteReply, appendReply: AppendReply, cmd: Option<Str>)
    requires |s.log| > 0 && Contiguous(s.log)
    ensures Careful(s, HandleAppend(s, append, saved).0)
    ensures Careful(s, HandleVote(s, vote, recent).0)
    ensures Careful(s, StartElection(s))
    ensures Careful(s, HandleVoteReply(s, from, reqTerm, voteReply))
    ensures Careful(s, BecomeLeader(s, saved))
    ensures Careful(s, Submit(s, cmd, saved))
    ensures Careful(s, HandleAppendReply(s, from, reqTerm, sent, appendReply, saved))
  {
    hide HandleAppend, HandleVote, StartElection, HandleVoteReply, BecomeLeader, Submit, HandleAppendReply, Careful;
    CarefulElection(s, vote, recent, from, reqTerm, voteReply);
    CarefulAppend(s, append, saved);
    CarefulLeader(s, saved, from, reqTerm, sent, appendReply, cmd);
  }

  /** InstallSnapshot is the exception: its answer is durable if and only if it does not forget. */
  lemma InstallDurableExactly(s: ServerState, a: InstallArgs)
    requires |s.log| > 0 && Contiguous(s.log) && s.disk.state == Some(Durable(s.term, s.votedFor, s.log))
    ensures
      var (s', answer) := HandleInstall(s, a);
      s'.disk.state == Some(Durable(s'.term, s'.votedFor, s'.log)) && s'.disk.state.value.term == answer <==> !Forgets(s, a)
  {
    hide RebaseLog;
  }

  lemma CarefulElection(s: ServerState, a: VoteArgs, recent: bool, from: NodeId, reqTerm: nat, r: VoteReply)
    requires |s.log| > 0
    ensures Careful(s, HandleVote(s, a, recent).0) && Careful(s, StartElection(s))
      && Careful(s, HandleVoteReply(s, from, reqTerm, r))
  {
    hide UpToDate;
  }

  lemma CarefulApply(s: ServerState, saved: bool)
    requires Contiguous(s.log)
    ensures
      var r := ApplyCommitted(s, saved);
      r == s.(lastApplied := r.lastApplied, fed := r.fed, disk := s.disk.(marker := r.disk.marker)) && r.lastApplied >= s.lastApplied
  {
    hide Commands;
  }

  lemma CarefulAdvance(s: ServerState, saved: bool)
    requires Contiguous(s.log)
    ensures
      var r := AdvanceCommit(s, saved);
      && r == s.(commitIndex := r.commitIndex, lastApplied := r.lastApplied, fed := r.fed, disk := s.disk.(marker := r.disk.marker))
      && r.lastApplied >= s.lastApplied
  {
    hide ApplyCommitted, ScanDown;
    if s.role == Leader {
      CarefulApply(s.(commitIndex := ScanDown(s, LastIndex(s.log))), saved);
    }
  }

  lemma CarefulAppend(s: ServerState, a: AppendArgs, saved: bool)
    requires |s.log| > 0 && Contiguous(s.log)
    ensures Careful(s, HandleAppend(s, a, saved).0)
  {
    hide AppendFrom, ApplyCommitted, MatchesPrev;
    if !s.stopped && a.term >= s.term && MatchesPrev(s.log, a.prevIndex, a.prevTerm) {
      MatchesPrevInRange(s.log, a.prevIndex, a.prevTerm);
      var log := AppendFrom(s.log, a.prevIndex, a.entries);
      var s1 := ObserveTerm(s, a.term);
      var s2 := s1.(role := if s1.role == Candidate then Follower else s1.role, leaderId := a.leader, log := log);
      var s3 := if log != s.log || a.term > s.term then Persist(s2) else s2;
      CarefulApply(s3.(commitIndex := Min(a.leaderCommit, a.prevIndex + |a.entries|)), saved);
    }
  }

  lemma CarefulLeader(s: ServerState, saved: bool, from: NodeId, reqTerm: nat, sent: nat, r: AppendReply,
                      cmd: Option<Str>)
    requires |s.log| > 0 && Contiguous(s.log)
    ensures Careful(s, BecomeLeader(s, saved))
    ensures Careful(s, Submit(s, cmd, saved))
    ensures Careful(s, HandleAppendReply(s, from, reqTerm, sent, r, saved))
  {
    hide AdvanceCommit, SetAll;
    CarefulAdvance(Crowned(s), saved);
    CarefulAdvance(Proposed(s, cmd), saved);
    CarefulAdvance(s, saved);
    CarefulAdvance(Matched(s, from, sent), saved);
  }

  lemma CarefulInstallReply(s: ServerState, from: NodeId, reqTerm: nat, last: nat, term: nat, saved: bool)
    requires |s.log| > 0 && Contiguous(s.log)
    ensures Careful(s, HandleInstallReply(s, from, reqTerm, last, term, saved))
  {
    hide AdvanceCommit;
    CarefulAdvance(Raised(s, from, last), saved);
  }

  // ----- the commit index -----

  /**
   The commit index retreats on an accepted request exactly when the request claims a commit beyond
   the entries it vouches for and those entries stop short of what is already committed.
   */
  lemma CommitRetreatsExactly(s: ServerState, a: AppendArgs, saved: bool)
    requires Contiguous(s.log) && !s.stopped && a.term >= s.term && MatchesPrev(s.log, a.prevIndex, a.prevTerm)
    ensures HandleAppend(s, a, saved).0.commitIndex < s.commitIndex
       <==> a.leaderCommit > s.commitIndex && a.prevIndex + |a.entries| < s.commitIndex
  {
    hide Commands, AppendFrom, MatchesPrev, Contiguous;
    MatchesPrevInRange(s.log, a.prevIndex, a.prevTerm);
  }

  /** Such a request exists: a bare heartbeat for index 0 with a large commit index rewinds a committed server. */
  lemma CommitCanRetreat()
    ensures exists s: ServerState, a: AppendArgs ::
      Contiguous(s.log) && HandleAppend(s, a, true).0.commitIndex < s.commitIndex
  {
    var log := [SENTINEL, LogEntry(1, 1, None)];
    var s := NewServer([1], [[1]], Disk(None, 0, None)).(term := 1, log := log, commitIndex := 1, lastApplied := 1);
    var a := AppendArgs(1, [2], 0, 0, [], 2);
    assert MatchesPrev(s.log, 0, 0);
    CommitRetreatsExactly(s, a, true);
  }

  /** A leader only builds requests whose commit index its entries cover, whatever its log's base. */
  lemma BuiltRequestCovers(s: ServerState, peer: NodeId)
    requires Contiguous(s.log) && s.commitIndex <= LastIndex(s.log) && NextFor(s, peer) <= LastIndex(s.log) + 1
    requires BuildAppend(s, peer).Some?
    ensures
      var a := BuildAppend(s, peer).value;
      a.leaderCommit <= a.prevIndex + |a.entries| == LastIndex(s.log)
  {
  }

  /** In every reachable state no step but a crash lowers a commit index, however late its message arrives. */
  lemma CommitNeverRetreats(c: Cluster, step: Step)
    requires Inv(c) && Enabled(c, step) && !step.CrashRestart?
    ensures LogsWellFormed(c)
    ensures forall p :: p in c.servers ==> p in Next(c, step).servers && Next(c, step).servers[p].commitIndex >= c.servers[p].commitIndex
  {
    hide Inv, After, Contiguous;
    InvLogs(c);
    NextShape(c, step);
    if step.ReceiveAppend? {
      RequestCovered(c, step.m.append);
    }
    AfterMonotone(c.servers[step.s], step);
    ServerName(c, step.s);
  }

  lemma ServerName(c: Cluster, p: NodeId)
    requires Inv(c) && p in c.servers
    ensures c.servers[p].id == p
  {
  }

  lemma RequestCovered(c: Cluster, a: AppendArgs)
    requires Inv(c) && AppendRequest(a) in c.net
    ensures a.leaderCommit <= a.prevIndex + |a.entries|
  {
    hide HistoryOk, ServerOk;
    assert MessageOk(c, AppendRequest(a));
    AppendCovered(c, a);
  }

  lemma AfterMonotone(s: ServerState, step: Step)
    requires Contiguous(s.log) && !step.CrashRestart? && WellAddressed(step)
    requires step.ReceiveAppend? ==> step.m.append.leaderCommit <= step.m.append.prevIndex + |step.m.append.entries|
    ensures After(s, step).commitIndex >= s.commitIndex && After(s, step).id == s.id
  {
    hide HandleAppend, HandleOffer, AdvanceCommit, UpToDate, SetAll;
    match step
    case Lead(_, saved) => AdvanceMonotone(Crowned(s), saved);
    case Propose(_, cmd, saved) => AdvanceMonotone(Proposed(s, cmd), saved);
    case ReceiveAppend(_, m, saved) => AppendMonotone(s, m.append, saved);
    case ReceiveAppendAnswer(_, m, saved) =>
      AdvanceMonotone(s, saved);
      AdvanceMonotone(Matched(s, m.from, m.sent), saved);
    case TakeOffer(_, m, decoded) => OfferMonotone(s, m.offer, decoded);
    case OfferAnswered(_, m, saved) => AdvanceMonotone(Raised(s, m.from, m.sent), saved);
    case _ =>
  }

  lemma OfferMonotone(s: ServerState, a: AppendArgs, decoded: bool)
    requires Contiguous(s.log)
    ensures
      var r := HandleOffer(s, a, decoded).0;
      r.commitIndex >= s.commitIndex && r.lastApplied >= s.lastApplied && r.id == s.id
  {
    hide AppendFrom, ApplyCommitted;
    CarefulApply(ObserveTerm(s, a.term).(leaderId := a.leader, log := AppendFrom(s.log, 0, a.entries), commitIndex := |a.entries|), false);
  }

  lemma AppendCovered(c: Cluster, a: AppendArgs)
    requires MessageOk(c, AppendRequest(a))
    ensures a.leaderCommit <= a.prevIndex + |a.entries|
  {
  }

  lemma AppendMonotone(s: ServerState, a: AppendArgs, saved: bool)
    requires Contiguous(s.log) && a.leaderCommit <= a.prevIndex + |a.entries|
    ensures HandleAppend(s, a, saved).0.commitIndex >= s.commitIndex && HandleAppend(s, a, saved).0.id == s.id
  {
    hide ApplyCommitted, AppendFrom, MatchesPrev, Contiguous;
    if !s.stopped && a.term >= s.term && MatchesPrev(s.log, a.prevIndex, a.prevTerm) {
      MatchesPrevInRange(s.log, a.prevIndex, a.prevTerm);
      var log := AppendFrom(s.log, a.prevIndex, a.entries);
      var s1 := ObserveTerm(s, a.term);
      var s2 := s1.(role := if s1.role == Candidate then Follower else s1.role, leaderId := a.leader, log := log);
      var s3 := if log != s.log || a.term > s.term then Persist(s2) else s2;
      CarefulApply(s3.(commitIndex := Min(a.leaderCommit, a.prevIndex + |a.entries|)), saved);
    }
  }

  lemma AdvanceMonotone(s: ServerState, saved: bool)
    requires Contiguous(s.log)
    ensures AdvanceCommit(s, saved).commitIndex >= s.commitIndex && AdvanceCommit(s, saved).id == s.id
  {
    hide Commands, Committable;
  }
}
