/** What the server-local parts of a step keep: stepping down, counting, committing, applying, restarting. */
module RaftSteps {
  import opened Bytes
  import opened RaftLog
  import opened RaftState
  import opened RaftCluster
  import opened RaftInvariant
  import opened RaftFrame

  // ----- applying -----

  lemma {:induction false} CommandsSplit(log: seq<LogEntry>, lo: nat, mid: nat, hi: nat)
    requires Contiguous(log) && BaseIndex(log) <= lo + 1 && lo <= mid <= hi <= LastIndex(log)
    ensures Commands(log, lo, mid) + Commands(log, mid, hi) == Commands(log, lo, hi)
    decreases hi
  {
    if mid < hi {
      CommandsSplit(log, lo, mid, hi - 1);
    }
  }

  /** Commands depends only on the entries it covers. */
  lemma {:induction false} CommandsAgree(a: seq<LogEntry>, b: seq<LogEntry>, k: nat)
    requires Rooted(a) && Rooted(b) && Agree(a, b, k)
    ensures Commands(a, 0, k) == Commands(b, 0, k)
    decreases k
  {
    if k > 0 {
      assert a[k] == a[..k + 1][k] == b[..k + 1][k] == b[k];
      assert a[..k] == a[..k + 1][..k] == b[..k + 1][..k] == b[..k];
      CommandsAgree(a, b, k - 1);
    }
  }

  ghost predicate Applying(s: ServerState) {
    && Rooted(s.log)
    && s.disk.marker <= s.lastApplied <= s.commitIndex < |s.log|
    && s.fed == Commands(s.log, 0, s.lastApplied)
  }

  /** applyCommitted brings the state machine exactly to commitIndex, feeding each entry once. */
  lemma ApplyReachesCommit(s: ServerState, saved: bool)
    requires Applying(s)
    ensures
      var r := ApplyCommitted(s, saved);
      && Applying(r) && r.lastApplied == s.commitIndex
      && r == s.(lastApplied := r.lastApplied, fed := r.fed, disk := s.disk.(marker := r.disk.marker))
  {
    if s.commitIndex > s.lastApplied {
      CommandsSplit(s.log, 0, s.lastApplied, s.commitIndex);
    }
  }

  lemma ApplyOk(c: Cluster, s: ServerState, saved: bool)
    requires ServerOk(c, s)
    ensures ServerOk(c, ApplyCommitted(s, saved))
  {
    ApplyReachesCommit(s, saved);
    var r := ApplyCommitted(s, saved);
    assert Synced(r) && TermBounds(c, r) && VoteOk(c, r) && CandidateOk(c, r) && LeaderOk(c, r) && AppliedOk(c, r);
  }

  // ----- the commit rule -----

  lemma {:induction false} CountIsSize(peers: seq<NodeId>, matchIndex: map<NodeId, nat>, n: nat)
    requires Distinct(peers)
    ensures CountAtLeast(peers, matchIndex, n) == |set p | p in peers && Get(matchIndex, p) >= n|
    decreases |peers|
  {
    if peers != [] {
      hide Get, Distinct;
      DistinctLast(peers);
      CountIsSize(peers[..|peers| - 1], matchIndex, n);
      HoldersLast(peers, matchIndex, n);
    }
  }

  lemma DistinctLast(peers: seq<NodeId>)
    requires Distinct(peers) && peers != []
    ensures Distinct(peers[..|peers| - 1]) && peers[|peers| - 1] !in peers[..|peers| - 1]
  {
  }

  lemma HoldersLast(peers: seq<NodeId>, matchIndex: map<NodeId, nat>, n: nat)
    requires peers != [] && peers[|peers| - 1] !in peers[..|peers| - 1]
    ensures
      var k := |peers| - 1;
      |set p | p in peers && Get(matchIndex, p) >= n| ==
        |set p | p in peers[..k] && Get(matchIndex, p) >= n| + if Get(matchIndex, peers[k]) >= n then 1 else 0
  {
    hide Get;
    var k := |peers| - 1;
    var rest := set p | p in peers[..k] && Get(matchIndex, p) >= n;
    assert peers == peers[..k] + [peers[k]];
    if Get(matchIndex, peers[k]) >= n {
      assert (set p | p in peers && Get(matchIndex, p) >= n) == rest + {peers[k]};
    } else {
      assert (set p | p in peers && Get(matchIndex, p) >= n) == rest;
    }
  }

  /** The peers counted for n, one of which may be counted only because n is committed already. */
  lemma CommittableIsCommitted(c: Cluster, s: ServerState, n: nat)
    requires Distinct(c.members) && ServerOk(c, s) && s.role == Leader && Committable(s, n) && n > 0
    ensures CommittedTo(c, s.log, n, s.term)
  {
    hide AnchoredAt, Retains, TermBounds, AppliedOk, CandidateOk, VoteOk, CommittedTo, Quorum, AckedBy;
    var q := set p | p in s.peers && Get(s.matchIndex, p) >= n;
    CountIsSize(s.peers, s.matchIndex, n);
    forall v | v in q
      ensures MatchOk(c, s, v) && v in c.members
    {
    }
    if v :| v in q && !Acked(c.h.reigns, c.net, v, s.term, Get(s.matchIndex, v)) {
      var k := Get(s.matchIndex, v);
      CommittedInRange(c, s.log, k, s.term);
      CommittedPrefix(c, s.log, k, n, s.term);
    } else {
      QuorumCommits(c, s, q, n);
    }
  }

  lemma CommittedInRange(c: Cluster, log: seq<LogEntry>, k: nat, bound: nat)
    requires CommittedTo(c, log, k, bound) && k > 0
    ensures k < |log|
  {
  }

  lemma QuorumCommits(c: Cluster, s: ServerState, q: set<NodeId>, n: nat)
    requires Rooted(s.log) && Contiguous(s.log) && 0 < n && TermAt(s.log, n) == Some(s.term)
    requires s.term in c.h.reigns && c.h.reigns[s.term].log == s.log
    requires (forall v :: v in q ==> v in c.members) && |q| >= Majority(|c.members|)
    requires forall v :: v in q ==> Get(s.matchIndex, v) >= n && Acked(c.h.reigns, c.net, v, s.term, Get(s.matchIndex, v))
    ensures CommittedTo(c, s.log, n, s.term)
  {
    assert Quorum(c.members, q) && AckedBy(c.h.reigns, c.net, q, s.term, n);
    assert CommitPoint(c, s.term, n);
    assert Agree(s.log, c.h.reigns[s.term].log, n);
  }

  lemma AdvanceOk(c: Cluster, s: ServerState, saved: bool)
    requires Distinct(c.members) && ServerOk(c, s)
    ensures ServerOk(c, AdvanceCommit(s, saved))
  {
    if s.role == Leader {
      var n := ScanDown(s, LastIndex(s.log));
      if n != s.commitIndex {
        var s' := s.(commitIndex := n);
        CommittableIsCommitted(c, s, n);
        assert Synced(s') && TermBounds(c, s') && VoteOk(c, s') && CandidateOk(c, s') && LeaderOk(c, s')
          && AppliedOk(c, s');
        ApplyOk(c, s', saved);
      }
    }
  }

  // ----- terms -----

  lemma RetainsLater(c: Cluster, s: ServerState, bound: nat)
    requires TermBounds(c, s) && Retains(c.h.reigns, c.net, s.id, s.log, s.term + 1) && s.term < bound
    ensures Retains(c.h.reigns, c.net, s.id, s.log, bound)
  {
    forall t: nat, k: nat | t < bound && Acked(c.h.reigns, c.net, s.id, t, k)
      ensures Agree(s.log, c.h.reigns[t].log, k) || Overwritten(c.h.reigns, t, k, bound)
    {
      assert t <= s.term;
      if Overwritten(c.h.reigns, t, k, s.term + 1) {
        OverwrittenGrows(c, c, t, k, s.term + 1, bound);
      }
    }
  }

  lemma CommittedToLater(c: Cluster, log: seq<LogEntry>, k: nat, bound: nat, bound': nat)
    requires CommittedTo(c, log, k, bound) && bound <= bound' && k < |log|
    ensures CommittedTo(c, log, k, bound')
  {
    assert Agree(log, log, k);
    CommittedToMoves(c, log, log, k, bound, bound');
  }

  /** Adopting a later term, durably, keeps every promise. */
  lemma AdoptOk(c: Cluster, s: ServerState, term: nat)
    requires ServerOk(c, s) && term > s.term
    ensures ServerOk(c, Persist(BecomeFollower(s, term)))
  {
    var r := Persist(BecomeFollower(s, term));
    RetainsLater(c, s, term + 1);
    CommittedToLater(c, s.log, s.commitIndex, s.term, term);
    assert TermBounds(c, r) && VoteOk(c, r) && CandidateOk(c, r) && LeaderOk(c, r) && AppliedOk(c, r);
  }

  lemma FollowOk(c: Cluster, s: ServerState, leader: NodeId)
    requires ServerOk(c, s)
    ensures ServerOk(c, s.(role := if s.role == Candidate then Follower else s.role, leaderId := leader))
  {
    var r := s.(role := if s.role == Candidate then Follower else s.role, leaderId := leader);
    assert Synced(r) && TermBounds(c, r) && VoteOk(c, r) && CandidateOk(c, r) && LeaderOk(c, r) && AppliedOk(c, r);
  }

  // ----- crash and restart -----

  /** Restart keeps term, vote and log, and replays to the applied marker, which the log always covers. */
  lemma RestartEffect(s: ServerState)
    requires Synced(s) && Rooted(s.log) && s.disk.snapshot == None && s.disk.marker < |s.log|
    requires s.disk.state == None ==> s.disk.marker == 0
    ensures Restart(s) == NewServer(s.id, s.peers, s.disk).(term := s.term, votedFor := s.votedFor, log := s.log,
              commitIndex := s.disk.marker, lastApplied := s.disk.marker, fed := Commands(s.log, 0, s.disk.marker))
  {
  }

  lemma RestartOk(c: Cluster, s: ServerState)
    requires ServerOk(c, s)
    ensures s.disk.state.Some? ==> Contiguous(s.disk.state.value.log)
    ensures ServerOk(c, Restart(s))
  {
    RestartEffect(s);
    var r := Restart(s);
    var k := s.disk.marker;
    CommittedPrefix(c, s.log, s.commitIndex, k, s.term);
    assert Synced(r) && TermBounds(c, r) && VoteOk(c, r) && CandidateOk(c, r) && LeaderOk(c, r) && AppliedOk(c, r);
  }

  lemma CommittedPrefix(c: Cluster, log: seq<LogEntry>, k: nat, j: nat, bound: nat)
    requires CommittedTo(c, log, k, bound) && j <= k < |log|
    ensures CommittedTo(c, log, j, bound)
  {
    if j > 0 {
      var t: nat, n: nat :| t <= bound && k <= n && CommitPoint(c, t, n) && Agree(log, c.h.reigns[t].log, k);
      assert log[..j + 1] == log[..k + 1][..j + 1];
      assert Agree(log, c.h.reigns[t].log, j);
    }
  }
}
