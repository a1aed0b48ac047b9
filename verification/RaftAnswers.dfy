/**
 What each handler answers and when, in terms of the paper's rules.  Safety would survive a server that refuses
 too much; these lemmas say that none does.
 */
module RaftAnswers {
  import opened Bytes
  import opened RaftLog
  import opened RaftState
  import opened RaftCluster
  import opened RaftSteps

  // ----- committing -----

  /** More than half of the peers hold the entry at n, and it is of the leader's own term. */
  ghost predicate MajorityHolds(s: ServerState, n: nat)
    requires Contiguous(s.log)
  {
    && BaseIndex(s.log) <= n <= LastIndex(s.log) && s.log[n - BaseIndex(s.log)].term == s.term
    && 2 * |set p | p in s.peers && Get(s.matchIndex, p) >= n| > |s.peers|
  }

  lemma CommittableExactly(s: ServerState, n: nat)
    requires Contiguous(s.log) && Distinct(s.peers)
    ensures Committable(s, n) <==> MajorityHolds(s, n)
  {
    CountIsSize(s.peers, s.matchIndex, n);
  }

  lemma {:induction false} ScanFindsHighest(s: ServerState, n: nat)
    requires Contiguous(s.log)
    ensures forall k :: s.commitIndex < k <= n && Committable(s, k) ==> k <= ScanDown(s, n)
    decreases n
  {
    hide Committable;
    if s.commitIndex < n && !Committable(s, n) {
      ScanFindsHighest(s, n - 1);
    }
  }

  /** Applying changes the machine, how far it got and the marker. */
  lemma ApplyKeepsCommit(s: ServerState, saved: bool)
    requires Contiguous(s.log)
    ensures
      var r := ApplyCommitted(s, saved);
      r == s.(fed := r.fed, lastApplied := r.lastApplied, disk := r.disk)
  {
  }

  lemma ApplyKeeps(saved: bool)
    ensures forall s: ServerState {:trigger ApplyCommitted(s, saved)} :: Contiguous(s.log) ==>
      var r := ApplyCommitted(s, saved);
      r == s.(fed := r.fed, lastApplied := r.lastApplied, disk := r.disk)
  {
    forall s: ServerState | Contiguous(s.log)
      ensures
        var r := ApplyCommitted(s, saved);
        r == s.(fed := r.fed, lastApplied := r.lastApplied, disk := r.disk)
    {
      ApplyKeepsCommit(s, saved);
    }
  }

  /** A leader commits exactly through the highest entry of its own term that a majority holds. */
  lemma CommitExactly(s: ServerState, saved: bool)
    requires Contiguous(s.log) && Distinct(s.peers)
    ensures
      var k := AdvanceCommit(s, saved).commitIndex;
      && (s.role != Leader ==> k == s.commitIndex)
      && (s.role == Leader ==> forall n :: s.commitIndex < n <= LastIndex(s.log) && MajorityHolds(s, n) ==> n <= k)
      && (k != s.commitIndex ==> s.commitIndex < k <= LastIndex(s.log) && MajorityHolds(s, k))
  {
    hide Committable, ApplyCommitted, MajorityHolds;
    if s.role == Leader {
      var n := ScanDown(s, LastIndex(s.log));
      ScanFindsHighest(s, LastIndex(s.log));
      ApplyKeepsCommit(s.(commitIndex := n), saved);
      forall i: nat
        ensures Committable(s, i) <==> MajorityHolds(s, i)
      {
        CommittableExactly(s, i);
      }
    }
  }

  // ----- voting -----

  /** Section 5.4.1 of the extended Raft paper: by last term, then by last index. */
  ghost predicate AsUpToDate(a: VoteArgs, log: seq<LogEntry>)
    requires |log| > 0
  {
    var last := log[|log| - 1];
    a.lastTerm > last.term || (a.lastTerm == last.term && a.lastIndex >= last.index)
  }

  /**
   A vote is granted if and only if the server is up, the term is not old, no leader was just heard from, the vote is
   still free and the candidate's log is as up to date; it is then on disk, and the reply carries the candidate's term.
   */
  lemma VoteExactly(s: ServerState, a: VoteArgs, recent: bool)
    requires |s.log| > 0
    ensures
      var (s', r) := HandleVote(s, a, recent);
      && (r.granted <==>
            && !s.stopped && a.term >= s.term && !(s.leaderId != [] && s.role == Follower && recent)
            && (a.term > s.term || s.votedFor == None || s.votedFor == Some(a.candidate))
            && AsUpToDate(a, s.log))
      && (r.granted ==> s'.disk.state == Some(Durable(a.term, Some(a.candidate), s.log)) && r.term == a.term)
  {
  }

  /** A candidate may lead if and only if more than half of the peers have voted for it. */
  lemma LeadExactly(s: ServerState)
    ensures CanLead(s) <==> s.role == Candidate && 2 * |s.votes| > |s.peers|
  {
  }

  /** A granted vote counts if and only if the candidate still stands in the term it was asked for. */
  lemma VoteCounts(s: ServerState, from: NodeId, reqTerm: nat, r: VoteReply)
    requires r.term <= s.term
    ensures from in HandleVoteReply(s, from, reqTerm, r).votes <==>
      from in s.votes || (r.granted && s.role == Candidate && s.term == reqTerm)
  {
  }

  /** Once it has heard from a leader a follower turns every candidate away, whatever its term, and keeps its own. */
  lemma LeaderContactHolds(s: ServerState, a: AppendArgs, saved: bool, v: VoteArgs)
    requires Contiguous(s.log) && !s.stopped && a.term >= s.term && a.leader != []
    requires a.term > s.term || s.role != Leader
    ensures
      var s' := HandleAppend(s, a, saved).0;
      |s'.log| > 0 && HandleVote(s', v, true) == (s', VoteReply(s'.term, false)) && s'.term == a.term
  {
    hide HandleAppend;
    HeardFrom(s, a, saved);
  }

  lemma HeardFrom(s: ServerState, a: AppendArgs, saved: bool)
    requires Contiguous(s.log) && !s.stopped && a.term >= s.term && (a.term > s.term || s.role != Leader)
    ensures
      var s' := HandleAppend(s, a, saved).0;
      s'.role == Follower && s'.leaderId == a.leader && s'.term == a.term && |s'.log| > 0
  {
    hide AppendFrom, MatchesPrev, ApplyCommitted;
    ApplyKeeps(saved);
  }

  // ----- replication -----

  /** A request is taken if and only if the server is up, the term is not old and the entry before it matches. */
  lemma AppendExactly(s: ServerState, a: AppendArgs, saved: bool)
    requires Contiguous(s.log)
    ensures
      var (s', r) := HandleAppend(s, a, saved);
      && (r.success <==>
            && !s.stopped && a.term >= s.term && a.prevIndex <= LastIndex(s.log)
            && (a.prevIndex >= BaseIndex(s.log) ==> s.log[a.prevIndex - BaseIndex(s.log)].term == a.prevTerm))
      && (r.success && a.leaderCommit > s.commitIndex ==>
            s'.commitIndex == if a.leaderCommit <= a.prevIndex + |a.entries| then a.leaderCommit else a.prevIndex + |a.entries|)
  {
    hide AppendFrom, ApplyCommitted;
    ApplyKeeps(saved);
  }

  /** When the marker can be saved it names the last entry applied. */
  lemma MarkerKeepsUp(s: ServerState)
    requires Contiguous(s.log) && BaseIndex(s.log) <= s.lastApplied <= s.commitIndex <= LastIndex(s.log) && 0 < s.commitIndex
    ensures
      var s' := ApplyCommitted(s, true);
      s'.lastApplied == s.commitIndex && s'.disk.marker == s'.lastApplied
  {
    hide Commands;
  }

  // ----- snapshots -----

  /** A snapshot is taken if and only if it is of no old term, readable and ahead of both the log's base and the machine. */
  lemma InstallExactly(s: ServerState, a: InstallArgs)
    requires Contiguous(s.log)
    ensures
      var s' := HandleInstall(s, a).0;
      if a.term >= s.term && a.data.Some? && a.lastIndex > BaseIndex(s.log) && a.lastIndex > s.lastApplied then
        && s'.fed == a.data.value && s'.lastApplied == a.lastIndex && s'.commitIndex >= a.lastIndex
        && |s'.log| > 0 && s'.log[0] == LogEntry(a.lastTerm, a.lastIndex, None)
      else
        s'.fed == s.fed && s'.log == s.log && s'.lastApplied == s.lastApplied && s'.commitIndex == s.commitIndex
  {
  }

  /** A finished compaction leaves exactly the unapplied entries behind, if the log had grown to the threshold. */
  lemma CompactsExactly(s: ServerState, threshold: nat)
    requires Contiguous(s.log) && s.lastApplied <= LastIndex(s.log)
    ensures
      var s' := MaybeCompact(s, threshold, Finished);
      if s.lastApplied > BaseIndex(s.log) && |s.log| > threshold then
        |s'.log| == LastIndex(s.log) - s.lastApplied + 1 && s'.log[0].index == s.lastApplied && s'.log[0].command == None
      else s' == s
  {
  }
}
