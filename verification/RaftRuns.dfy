/**
 The safety properties of Figure 3 over whole runs: any interleaving of campaigns, votes,
 proposals, replication, halts and crashes, over a network that may lose, duplicate and reorder.
 */
module RaftRuns {
  import opened RaftLog
  import opened RaftState
  import opened RaftCluster
  import opened RaftInvariant
  import opened RaftFrame
  import opened RaftSteps
  import opened RaftSafety
  import opened RaftPreservation
  import opened RaftReplication
  import opened RaftHearing

  ghost predicate StepTo(c: Cluster, d: Cluster) {
    exists step :: LogsWellFormed(c) && Enabled(c, step) && d == Next(c, step)
  }

  ghost predicate Run(run: seq<Cluster>) {
    && |run| > 0
    && Distinct(run[0].members) && run[0] == Initial(run[0].members)
    && forall i :: 0 <= i < |run| - 1 ==> StepTo(run[i], run[i + 1])
  }

  lemma InitialServer(c: Cluster, p: NodeId)
    requires c == Initial(c.members) && p in c.members
    ensures Sound(c, c.servers[p])
  {
    var s := c.servers[p];
    assert Synced(s) && TermBounds(c, s) && VoteOk(c, s) && CandidateOk(c, s) && LeaderOk(c, s) && AppliedOk(c, s);
  }

  lemma InitialInv(members: seq<NodeId>)
    requires Distinct(members)
    ensures Inv(Initial(members))
  {
    var c := Initial(members);
    forall p | p in c.servers
      ensures c.servers[p].id == p && Sound(c, c.servers[p])
    {
      InitialServer(c, p);
    }
  }

  /** The invariant holds throughout a run, so every server can always take its next step. */
  lemma {:induction false} RunInv(run: seq<Cluster>, i: nat)
    requires Run(run) && i < |run|
    ensures Inv(run[i]) && LogsWellFormed(run[i])
    decreases i
  {
    hide Inv, Next, Grows, LogsWellFormed;
    if i == 0 {
      InitialInv(run[0].members);
    } else {
      RunInv(run, i - 1);
      assert StepTo(run[i - 1], run[i - 1 + 1]);
      var step :| LogsWellFormed(run[i - 1]) && Enabled(run[i - 1], step) && run[i] == Next(run[i - 1], step);
      StepPreserves(run[i - 1], step);
    }
    InvLogs(run[i]);
  }

  lemma GrowsReflexive(c: Cluster)
    ensures Grows(c, c)
  {
  }

  lemma {:induction false} RunGrows(run: seq<Cluster>, i: nat, j: nat)
    requires Run(run) && i <= j < |run|
    ensures Grows(run[i], run[j])
    decreases j
  {
    hide Inv, Next, Grows, LogsWellFormed;
    if i == j {
      GrowsReflexive(run[i]);
    } else {
      RunGrows(run, i, j - 1);
      RunInv(run, j - 1);
      assert StepTo(run[j - 1], run[j - 1 + 1]);
      var step :| LogsWellFormed(run[j - 1]) && Enabled(run[j - 1], step) && run[j] == Next(run[j - 1], step);
      StepPreserves(run[j - 1], step);
      GrowsTransitive(run[i], run[j - 1], run[j]);
    }
  }

  // ----- Figure 3 -----

  /** Server p as it was at moment i of the run. */
  ghost function At(run: seq<Cluster>, i: nat, p: NodeId): ServerState
    requires i < |run| && p in run[i].servers
  {
    run[i].servers[p]
  }

  ghost predicate Present(run: seq<Cluster>, i: nat, p: NodeId) {
    i < |run| && p in run[i].servers
  }

  lemma ServerAt(run: seq<Cluster>, i: nat, p: NodeId)
    requires Run(run) && Present(run, i, p)
    ensures Sound(run[i], At(run, i, p)) && At(run, i, p).id == p && DiskTerm(At(run, i, p)) <= At(run, i, p).term
    ensures At(run, i, p).role == Leader ==> ServerOk(run[i], At(run, i, p))
    ensures HistoryOk(run[i].members, run[i].h, run[i].net)
  {
    hide HistoryOk, ServerOk, MessageOk;
    RunInv(run, i);
  }

  /** Election Safety: over a whole run, at most one server ever leads in a given term. */
  lemma ElectionSafety(run: seq<Cluster>, i: nat, p: NodeId, j: nat, q: NodeId)
    requires Run(run) && Present(run, i, p) && Present(run, j, q) && i <= j
    requires At(run, i, p).role == Leader && At(run, j, q).role == Leader
    requires At(run, i, p).term == At(run, j, q).term
    ensures p == q
  {
    ServerAt(run, i, p);
    ServerAt(run, j, q);
    RunGrows(run, i, j);
  }

  /** Leader Append-Only: within its term a leader's log only ever gets longer. */
  lemma LeaderAppendOnly(run: seq<Cluster>, i: nat, j: nat, p: NodeId)
    requires Run(run) && Present(run, i, p) && Present(run, j, p) && i <= j
    requires At(run, i, p).role == Leader && At(run, j, p).role == Leader
    requires At(run, i, p).term == At(run, j, p).term
    ensures At(run, i, p).log <= At(run, j, p).log
  {
    ServerAt(run, i, p);
    ServerAt(run, j, p);
    RunGrows(run, i, j);
  }

  lemma AnchoredLater(run: seq<Cluster>, i: nat, j: nat, p: NodeId)
    requires Run(run) && Present(run, i, p) && i <= j < |run|
    ensures Anchored(run[j].h.reigns, At(run, i, p).log)
    ensures CommittedTo(run[j], At(run, i, p).log, At(run, i, p).commitIndex, At(run, i, p).term)
  {
    hide Grows, HistoryOk, CommittedTo, AnchoredAt;
    ServerAt(run, i, p);
    RunGrows(run, i, j);
    var s := At(run, i, p);
    AnchoredGrows(run[i], run[j], s.log);
    CommittedToGrows(run[i], run[j], s.log, s.commitIndex, DiskTerm(s));
    CommittedToLater(run[j], s.log, s.commitIndex, DiskTerm(s), s.term);
  }

  /** Log Matching, between any two servers at any two moments. */
  lemma LogMatching(run: seq<Cluster>, i: nat, p: NodeId, j: nat, q: NodeId)
    requires Run(run) && Present(run, i, p) && Present(run, j, q)
    ensures Matching(At(run, i, p).log, At(run, j, q).log)
  {
    hide Grows, HistoryOk, CommittedTo;
    var k := if i <= j then j else i;
    AnchoredLater(run, i, k, p);
    AnchoredLater(run, j, k, q);
    AnchoredLogsMatch(run[k].h.reigns, At(run, i, p).log, At(run, j, q).log);
  }

  /**
   Leader Completeness over a run: what any server has committed by moment i, every leader of a
   later term holds, at whatever moment it leads.
   */
  lemma LeadersKeepCommits(run: seq<Cluster>, i: nat, p: NodeId, j: nat, q: NodeId)
    requires Run(run) && Present(run, i, p) && Present(run, j, q)
    requires At(run, j, q).role == Leader && At(run, j, q).term > At(run, i, p).term
    ensures Agree(At(run, i, p).log, At(run, j, q).log, At(run, i, p).commitIndex)
  {
    hide ServerOk, HistoryOk, CommittedTo, Anchored, Rooted, Run;
    var k := if i <= j then j else i;
    var s, l := At(run, i, p), At(run, j, q);
    var n := s.commitIndex;
    ServerAt(run, i, p);
    ServerAt(run, j, q);
    ServerRooted(run[i], Settled(s));
    ServerRooted(run[j], l);
    if n == 0 {
      assert s.log[..1] == [s.log[0]] == l.log[..1];
    } else {
      AnchoredLater(run, i, k, p);
      ServerAt(run, k, AnyServer(run, i, p, j, q));
      LeaderBallot(run, j, q, k);
      CommitInBallot(run[k], s.log, n, s.term, l.term);
      var b := run[k].h.ballots[(l.term, q)].log;
      assert l.log[..n + 1] == b[..n + 1];
    }
  }

  lemma ServerRooted(c: Cluster, s: ServerState)
    requires ServerOk(c, s)
    ensures Rooted(s.log) && s.lastApplied <= s.commitIndex < |s.log| && s.log[0] == SENTINEL
  {
  }

  ghost function AnyServer(run: seq<Cluster>, i: nat, p: NodeId, j: nat, q: NodeId): NodeId {
    if i <= j then q else p
  }

  lemma CommitInBallot(c: Cluster, log: seq<LogEntry>, k: nat, bound: nat, later: nat)
    requires HistoryOk(c.members, c.h, c.net) && CommittedTo(c, log, k, bound) && 0 < k < |log|
    requires bound < later && later in c.h.reigns
    ensures (later, c.h.reigns[later].leader) in c.h.ballots
    ensures Agree(log, c.h.ballots[(later, c.h.reigns[later].leader)].log, k)
  {
    hide HistoryOk, AckedBy, Quorum;
    var t: nat, n: nat :| t <= bound && k <= n && CommitPoint(c, t, n) && Agree(log, c.h.reigns[t].log, k);
    LeaderCompleteness(c, t, n, later);
    var a, b := c.h.reigns[t].log, c.h.ballots[(later, c.h.reigns[later].leader)].log;
    assert a[..k + 1] == a[..n + 1][..k + 1] == b[..n + 1][..k + 1] == b[..k + 1];
  }

  /** A leader's log extends the log it campaigned with. */
  lemma LeaderBallot(run: seq<Cluster>, j: nat, q: NodeId, k: nat)
    requires Run(run) && Present(run, j, q) && j <= k < |run| && At(run, j, q).role == Leader
    ensures
      var l := At(run, j, q);
      && l.term in run[k].h.reigns && run[k].h.reigns[l.term].leader == q
      && (l.term, q) in run[k].h.ballots && run[k].h.ballots[(l.term, q)].log <= l.log
  {
    ServerAt(run, j, q);
    RunGrows(run, j, k);
    assert ReignOk(run[j].members, run[j].h, At(run, j, q).term);
  }

  /** Two committed prefixes of one state never disagree. */
  lemma CommittedAgree(c: Cluster, a: seq<LogEntry>, m: nat, x: nat, b: seq<LogEntry>, n: nat, y: nat)
    requires HistoryOk(c.members, c.h, c.net) && Rooted(a) && Rooted(b)
    requires CommittedTo(c, a, m, x) && m < |a| && CommittedTo(c, b, n, y) && n < |b|
    requires m <= n
    ensures Agree(a, b, m)
  {
    hide HistoryOk, AckedBy, Quorum;
    if m == 0 {
      assert a[..1] == [SENTINEL] == b[..1];
    } else {
      var t: nat, i: nat :| t <= x && m <= i && CommitPoint(c, t, i) && Agree(a, c.h.reigns[t].log, m);
      var u: nat, j: nat :| u <= y && n <= j && CommitPoint(c, u, j) && Agree(b, c.h.reigns[u].log, n);
      var f, g := c.h.reigns[t].log, c.h.reigns[u].log;
      if t <= u {
        CommitInLeader(c, t, i, u, m);
      } else {
        CommitInLeader(c, u, j, t, m);
      }
      assert b[..m + 1] == b[..n + 1][..m + 1] == g[..n + 1][..m + 1] == g[..m + 1];
    }
  }

  lemma {:induction false} CommandsMonotone(log: seq<LogEntry>, m: nat, n: nat)
    requires Rooted(log) && m <= n < |log|
    ensures Commands(log, 0, m) <= Commands(log, 0, n)
  {
    CommandsSplit(log, 0, m, n);
  }

  /**
   State Machine Safety: no two servers, at any two moments of a run (before or after any number of
   crashes), have applied different entries at an index; what one state machine was fed is a prefix
   of what the other was fed.
   */
  lemma StateMachineSafety(run: seq<Cluster>, i: nat, p: NodeId, j: nat, q: NodeId)
    requires Run(run) && Present(run, i, p) && Present(run, j, q)
    requires At(run, i, p).lastApplied <= At(run, j, q).lastApplied
    ensures Agree(At(run, i, p).log, At(run, j, q).log, At(run, i, p).lastApplied)
    ensures At(run, i, p).fed <= At(run, j, q).fed
  {
    var k := if i <= j then j else i;
    var a, b := At(run, i, p), At(run, j, q);
    var m, n := a.lastApplied, b.lastApplied;
    ServerAt(run, i, p);
    ServerAt(run, j, q);
    AnchoredLater(run, i, k, p);
    AnchoredLater(run, j, k, q);
    CommittedPrefix(run[k], a.log, a.commitIndex, m, a.term);
    CommittedPrefix(run[k], b.log, b.commitIndex, n, b.term);
    ServerAt(run, k, AnyServer(run, i, p, j, q));
    CommittedAgree(run[k], a.log, m, a.term, b.log, n, b.term);
    CommandsAgree(a.log, b.log, m);
    CommandsMonotone(b.log, m, n);
  }

  // ----- catching up -----

  /** The server has applied the entry that the leader was about to append. */
  ghost predicate Landed(leader: ServerState, s: ServerState) {
    |leader.log| > 0 && exists e :: e in s.fed && e.index == LastIndex(leader.log) + 1 && e.term == leader.term
  }

  lemma {:induction false} FedFromLog(log: seq<LogEntry>, n: nat, e: LogEntry)
    requires Rooted(log) && n < |log| && e in Commands(log, 0, n)
    ensures 0 < e.index <= n && log[e.index] == e
    decreases n
  {
    if 0 < n {
      CommandsSplit(log, 0, n - 1, n);
      if e in Commands(log, 0, n - 1) {
        FedFromLog(log, n - 1, e);
      }
    }
  }

  lemma FedAt(run: seq<Cluster>, g: nat, q: NodeId)
    requires Run(run) && Present(run, g, q)
    ensures
      var s := At(run, g, q);
      && Rooted(s.log) && Anchored(run[g].h.reigns, s.log) && s.lastApplied < |s.log|
      && s.fed == Commands(s.log, 0, s.lastApplied)
  {
    hide Run, HistoryOk, CommittedTo, Grows;
    ServerAt(run, g, q);
    AnchoredLater(run, g, g, q);
  }

  lemma LeaderAt(run: seq<Cluster>, h: nat, p: NodeId)
    requires Run(run) && Present(run, h, p) && At(run, h, p).role == Leader
    ensures LeaderOk(run[h], At(run, h, p)) && Rooted(At(run, h, p).log)
      && LastIndex(At(run, h, p).log) == |At(run, h, p).log| - 1
  {
    hide Run, HistoryOk, CommittedTo, Grows;
    ServerAt(run, h, p);
    ServerRooted(run[h], At(run, h, p));
  }

  /** Before a leader appends an entry, nobody has it. */
  lemma NotYet(c: Cluster, d: Cluster, l: ServerState, log: seq<LogEntry>)
    requires Grows(c, d) && Anchored(c.h.reigns, log) && l.role == Leader && LeaderOk(d, l) && |l.log| > 0
    ensures |l.log| < |log| ==> log[|l.log|].term != l.term
  {
    hide MatchOk, NextFor;
    if |l.log| < |log| {
      assert AnchoredAt(c.h.reigns, log, |l.log|);
    }
  }

  /** A server that has applied an entry submitted at moment h has been fed all that anyone had been fed by then. */
  lemma CatchingUp(run: seq<Cluster>, h: nat, p: NodeId, i: nat, s: NodeId, g: nat, q: NodeId)
    requires Run(run) && Present(run, h, p) && Present(run, i, s) && Present(run, g, q) && g <= h
    requires At(run, h, p).role == Leader && Landed(At(run, h, p), At(run, i, s))
    ensures At(run, g, q).fed <= At(run, i, s).fed
  {
    hide Run, Anchored, Grows, LeaderOk, Commands, Rooted;
    var l, a, b := At(run, h, p), At(run, i, s), At(run, g, q);
    if b.lastApplied <= a.lastApplied {
      StateMachineSafety(run, g, q, i, s);
    } else {
      var e :| e in a.fed && e.index == LastIndex(l.log) + 1 && e.term == l.term;
      StateMachineSafety(run, i, s, g, q);
      LeaderAt(run, h, p);
      FedAt(run, g, q);
      RunGrows(run, g, h);
      FedFromLog(b.log, b.lastApplied, e);
      NotYet(run[g], run[h], l, b.log);
    }
  }
}
