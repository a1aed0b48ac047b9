/** Log growth keeps the invariant: taking the lead, proposing, and receiving entries. */
module RaftReplication {
  import opened Bytes
  import opened RaftLog
  import opened RaftState
  import opened RaftCluster
  import opened RaftInvariant
  import opened RaftFrame
  import opened RaftSteps
  import opened RaftSafety
  import opened RaftPreservation
  import opened RaftElection

  // ----- the leader's log grows by one entry of its own term -----

  /** d is c after server s's log, now the log of its reign, grew by one entry of its own term. */
  ghost predicate Extends(c: Cluster, d: Cluster, s: ServerState, log: seq<LogEntry>, electors: set<NodeId>) {
    && d.members == c.members && d.net == c.net
    && d.h == Crown(c.h, s.term, Reign(s.id, electors, log))
    && |log| == |s.log| + 1 && log[..|s.log|] == s.log
    && log[|s.log|].term == s.term && log[|s.log|].index == |s.log|
    && (s.term in c.h.reigns ==> c.h.reigns[s.term] == Reign(s.id, electors, s.log))
  }

  lemma ExtendsGrows(c: Cluster, d: Cluster, s: ServerState, log: seq<LogEntry>, electors: set<NodeId>)
    requires Extends(c, d, s, log, electors)
    ensures Grows(c, d)
    ensures forall v :: v != s.id ==> Quiet(c, d, v)
  {
    assert s.log <= log;
  }

  lemma ExtendsAnchored(c: Cluster, d: Cluster, s: ServerState, log: seq<LogEntry>, electors: set<NodeId>)
    requires Extends(c, d, s, log, electors) && Grows(c, d) && Anchored(c.h.reigns, s.log)
    ensures Anchored(d.h.reigns, log)
  {
    AnchoredGrows(c, d, s.log);
    forall i | 0 < i < |log|
      ensures AnchoredAt(d.h.reigns, log, i)
    {
      if i < |s.log| {
        assert AnchoredAt(d.h.reigns, s.log, i);
        assert log[i] == s.log[i];
        assert log[..i + 1] == s.log[..i + 1];
      }
    }
    forall i | 0 <= i < |log|
      ensures log[i].index == i
    {
      assert i < |s.log| ==> log[i] == s.log[i];
    }
    assert log[0] == s.log[0];
  }

  /** The only new acknowledgement is the leader's own, in its own term. */
  lemma ExtendsAcks(c: Cluster, d: Cluster, s: ServerState, log: seq<LogEntry>, electors: set<NodeId>, v: NodeId,
                    bound: nat)
    requires Extends(c, d, s, log, electors) && MessagesOk(c)
    requires v == s.id ==> bound <= s.term
    ensures NoNewAcks(c, d, v, bound)
  {
    forall t: nat, k: nat | t < bound && Acked(d.h.reigns, d.net, v, t, k)
      ensures Acked(c.h.reigns, c.net, v, t, k)
    {
      if d.h.reigns[t].leader != v {
        var m :| m in d.net && AnswerFrom(m, v, t) && k <= m.sent;
        assert MessageOk(c, m);
      }
    }
  }

  lemma ExtendsReign(c: Cluster, d: Cluster, s: ServerState, log: seq<LogEntry>, electors: set<NodeId>)
    requires Extends(c, d, s, log, electors) && Grows(c, d)
    requires Anchored(d.h.reigns, log) && TermsSorted(s.log) && TermsAtMost(s.log, s.term) && 0 < s.term
    requires Quorum(c.members, electors)
    requires forall v :: v in electors ==> (s.term, v) in c.h.ballots && c.h.ballots[(s.term, v)].candidate == s.id
    requires (s.term, s.id) in c.h.ballots && c.h.ballots[(s.term, s.id)].log <= s.log
    ensures ReignOk(d.members, d.h, s.term)
  {
    assert forall i :: 0 <= i < |s.log| ==> log[i] == s.log[i];
    assert s.log <= log;
  }

  /** What the term of a growing reign must satisfy. */
  ghost predicate Elected(c: Cluster, s: ServerState, electors: set<NodeId>) {
    && 0 < s.term && Quorum(c.members, electors)
    && (forall v :: v in electors ==> (s.term, v) in c.h.ballots && c.h.ballots[(s.term, v)].candidate == s.id)
    && (s.term, s.id) in c.h.ballots && c.h.ballots[(s.term, s.id)].log <= s.log
  }

  lemma ExtendsHistory(c: Cluster, d: Cluster, s: ServerState, log: seq<LogEntry>, electors: set<NodeId>)
    requires HistoryOk(c.members, c.h, c.net) && MessagesOk(c) && Extends(c, d, s, log, electors) && Grows(c, d)
    requires Anchored(c.h.reigns, s.log) && TermBounds(c, s) && Elected(c, s, electors)
    ensures HistoryOk(d.members, d.h, d.net)
  {
    AnchoredSorted(c.members, c.h, c.net, s.log);
    ExtendsAnchored(c, d, s, log, electors);
    ExtendsReign(c, d, s, log, electors);
    forall t | t in d.h.reigns
      ensures ReignOk(d.members, d.h, t)
    {
      if t != s.term {
        assert ReignOk(c.members, c.h, t);
        AnchoredGrows(c, d, c.h.reigns[t].log);
      }
    }
    forall t, v | (t, v) in d.h.ballots
      ensures BallotOk(d.h, t, v)
    {
      OldBallotOk(c, d, t, v);
    }
    ExtendsBallots(c, d, s, log, electors);
  }

  lemma ExtendsBallots(c: Cluster, d: Cluster, s: ServerState, log: seq<LogEntry>, electors: set<NodeId>)
    requires HistoryOk(c.members, c.h, c.net) && MessagesOk(c) && Extends(c, d, s, log, electors) && Grows(c, d)
    requires TermBounds(c, s)
    ensures forall t, v :: (t, v) in d.h.ballots && Counts(d.h, t, v) ==>
      Retains(d.h.reigns, d.net, v, d.h.ballots[(t, v)].log, t)
  {
    forall t, v | (t, v) in d.h.ballots && Counts(d.h, t, v)
      ensures Retains(d.h.reigns, d.net, v, d.h.ballots[(t, v)].log, t)
    {
      assert Counts(c.h, t, v);
      ExtendsAcks(c, d, s, log, electors, v, t);
      RetainsGrows(c, d, v, c.h.ballots[(t, v)].log, t);
    }
  }

  lemma ExtendsRetains(c: Cluster, d: Cluster, s: ServerState, log: seq<LogEntry>, electors: set<NodeId>)
    requires Extends(c, d, s, log, electors) && Grows(c, d) && MessagesOk(c)
    requires Retains(c.h.reigns, c.net, s.id, s.log, s.term + 1)
    ensures Retains(d.h.reigns, d.net, s.id, log, s.term + 1)
  {
    ExtendsAcks(c, d, s, log, electors, s.id, s.term);
    forall t: nat, k: nat | t < s.term + 1 && Acked(d.h.reigns, d.net, s.id, t, k)
      ensures Agree(log, d.h.reigns[t].log, k) || Overwritten(d.h.reigns, t, k, s.term + 1)
    {
      if t < s.term {
        assert Acked(c.h.reigns, c.net, s.id, t, k);
        if Agree(s.log, c.h.reigns[t].log, k) {
          assert s.log <= log;
          AgreeGrows(c.h.reigns[t].log, s.log, log, k);
        } else {
          OverwrittenGrows(c, d, t, k, s.term + 1, s.term + 1);
        }
      }
    }
  }

  /** The applied prefix is untouched by an append. */
  lemma ExtendsApplied(c: Cluster, d: Cluster, s: ServerState, r: ServerState)
    requires AppliedOk(c, s) && Grows(c, d)
    requires Rooted(r.log) && s.log <= r.log && r.term == s.term
    requires r.disk.marker == s.disk.marker && r.lastApplied == s.lastApplied && r.commitIndex == s.commitIndex
      && r.fed == s.fed
    ensures AppliedOk(d, r)
  {
    CommittedToGrows(c, d, s.log, s.commitIndex, s.term);
    assert Agree(s.log, r.log, s.commitIndex);
    CommittedToMoves(d, s.log, r.log, s.commitIndex, s.term, r.term);
    assert Agree(s.log, r.log, s.lastApplied);
    CommandsAgree(s.log, r.log, s.lastApplied);
  }

  /** The state in which AdvanceCommit runs, both after an election and after a proposal. */
  ghost predicate Appended(s: ServerState, r: ServerState, log: seq<LogEntry>) {
    && r.id == s.id && r.peers == s.peers && r.term == s.term && r.votedFor == s.votedFor && r.role == Leader
    && r.log == log && r.commitIndex == s.commitIndex && r.lastApplied == s.lastApplied && r.fed == s.fed
    && r.disk == s.disk.(state := Some(Durable(r.term, r.votedFor, r.log)))
  }

  lemma ExtendsServer(c: Cluster, d: Cluster, s: ServerState, r: ServerState, electors: set<NodeId>)
    requires ServerOk(c, s) && MessagesOk(c) && Grows(c, d)
    requires Extends(c, d, s, r.log, electors) && Appended(s, r, r.log) && LeaderOk(d, r)
    ensures ServerOk(d, r)
  {
    hide LeaderOk, AppliedOk, Retains, Anchored;
    ExtendsAnchored(c, d, s, r.log, electors);
    ExtendsRetains(c, d, s, r.log, electors);
    ExtendsRooted(d, s, r);
    ExtendsApplied(c, d, s, r);
    assert TermBounds(d, r) by {
      assert forall i :: 0 <= i < |s.log| ==> r.log[i] == s.log[i];
    }
    assert VoteOk(d, r);
  }

  lemma ExtendsRooted(d: Cluster, s: ServerState, r: ServerState)
    requires Anchored(d.h.reigns, r.log) && |r.log| == |s.log| + 1 && r.log[..|s.log|] == s.log
    ensures Rooted(r.log) && s.log <= r.log
  {
  }

  // ----- Lead -----

  /** Election Safety at the moment it matters: a candidate with a majority has no rival in its term. */
  lemma NoRival(c: Cluster, s: ServerState)
    requires HistoryOk(c.members, c.h, c.net) && ServerOk(c, s) && CanLead(s)
    ensures s.term !in c.h.reigns
    ensures Elected(c, s, s.votes)
  {
    assert BallotOk(c.h, s.term, s.id);
    assert Quorum(c.members, s.votes);
    if s.term in c.h.reigns {
      assert ReignOk(c.members, c.h, s.term);
      var v := QuorumsMeet(c.members, s.votes, c.h.reigns[s.term].electors);
      assert false;
    }
  }

  function Crowned(s: ServerState): ServerState
    requires Contiguous(s.log)
  {
    var next := LastIndex(s.log) + 1;
    Persist(s.(
      role := Leader,
      leaderId := s.id,
      nextIndex := SetAll(s.nextIndex, s.peers, next)[s.id := next + 1],
      matchIndex := SetAll(s.matchIndex, s.peers, 0)[s.id := next],
      log := s.log + [LogEntry(s.term, next, None)]))
  }

  lemma CrownedLeader(d: Cluster, s: ServerState)
    requires Contiguous(s.log) && Rooted(s.log) && s.peers == d.members
    requires s.term in d.h.reigns && d.h.reigns[s.term].leader == s.id && d.h.reigns[s.term].log == Crowned(s).log
    ensures LeaderOk(d, Crowned(s))
  {
    forall p | p in d.members
      ensures Get(SetAll(s.matchIndex, s.peers, 0), p) == 0
      ensures Get(SetAll(s.nextIndex, s.peers, |s.log|), p) == |s.log|
    {
      SetAllGet(s.matchIndex, s.peers, 0, p);
      SetAllGet(s.nextIndex, s.peers, |s.log|, p);
    }
  }

  lemma {:induction false} SetAllGet(m: map<NodeId, nat>, peers: seq<NodeId>, v: nat, p: NodeId)
    ensures Get(SetAll(m, peers, v), p) == if p in peers then v else Get(m, p)
    decreases |peers|
  {
    if peers != [] {
      var k := |peers| - 1;
      SetAllGet(m, peers[..k], v, p);
      assert p in peers <==> p in peers[..k] || p == peers[k];
    }
  }

  lemma AdvanceKeepsLog(s: ServerState, saved: bool)
    requires Contiguous(s.log)
    ensures AdvanceCommit(s, saved).log == s.log && AdvanceCommit(s, saved).id == s.id
  {
  }

  lemma LeadFacts(c: Cluster, d: Cluster, s: ServerState)
    requires HistoryOk(c.members, c.h, c.net) && MessagesOk(c) && ServerOk(c, s) && CanLead(s) && Contiguous(s.log)
    requires d.members == c.members && d.net == c.net && d.h == Crown(c.h, s.term, Reign(s.id, s.votes, Crowned(s).log))
    ensures Grows(c, d)
    ensures forall v :: v != s.id ==> Quiet(c, d, v)
    ensures HistoryOk(d.members, d.h, d.net)
    ensures ServerOk(d, Crowned(s))
  {
    hide HistoryOk, Quiet, LeaderOk, AppliedOk, Retains;
    NoRival(c, s);
    var log := Crowned(s).log;
    assert log[..|s.log|] == s.log;
    ExtendsGrows(c, d, s, log, s.votes);
    ExtendsHistory(c, d, s, log, s.votes);
    CrownedLeader(d, s);
    ExtendsServer(c, d, s, Crowned(s), s.votes);
  }

  lemma LeadStep(c: Cluster, step: Step)
    requires Inv(c) && step.Lead? && Enabled(c, step) && Ready(c, step)
    ensures LogsWellFormed(c) && Inv(Next(c, step)) && Grows(c, Next(c, step))
  {
    hide HistoryOk, ServerOk, MessageOk, Quiet, AdvanceCommit;
    InvLogs(c);
    var s := c.servers[step.s];
    var me := BecomeLeader(s, step.saved);
    var d := Next(c, step);
    AdvanceKeepsLog(Crowned(s), step.saved);
    LeadFacts(c, d, s);
    AdvanceOk(d, Crowned(s), step.saved);
    Assemble(c, d, me, {});
  }

  // ----- Propose -----

  function Proposed(s: ServerState, cmd: Option<Str>): ServerState
    requires Contiguous(s.log)
  {
    var idx := LastIndex(s.log) + 1;
    Persist(s.(log := s.log + [LogEntry(s.term, idx, cmd)], matchIndex := s.matchIndex[s.id := idx]))
  }

  lemma ProposedLeader(c: Cluster, d: Cluster, s: ServerState, cmd: Option<Str>)
    requires LeaderOk(c, s) && s.role == Leader && Contiguous(s.log) && Rooted(s.log) && Grows(c, d)
    requires s.term in d.h.reigns && d.h.reigns[s.term].leader == s.id && d.h.reigns[s.term].log == Proposed(s, cmd).log
    ensures LeaderOk(d, Proposed(s, cmd))
  {
    hide CommittedTo;
    var r := Proposed(s, cmd);
    forall p | p in d.members
      ensures MatchOk(d, r, p)
    {
      if p != s.id {
        assert MatchOk(c, s, p);
        MatchOkGrows(c, d, s, p);
        LongerMatchOk(d, s, r, p);
      }
    }
  }

  lemma LongerMatchOk(d: Cluster, s: ServerState, r: ServerState, p: NodeId)
    requires MatchOk(d, s, p) && Get(r.matchIndex, p) == Get(s.matchIndex, p) && r.term == s.term && s.log <= r.log
    ensures MatchOk(d, r, p)
  {
    var k := Get(s.matchIndex, p);
    if k > 0 && CommittedTo(d, s.log, k, s.term) {
      CommittedInRange(d, s.log, k, s.term);
      assert Agree(s.log, r.log, k);
      CommittedToMoves(d, s.log, r.log, k, s.term, s.term);
    }
  }

  lemma SittingLeader(c: Cluster, s: ServerState)
    requires HistoryOk(c.members, c.h, c.net) && ServerOk(c, s) && s.role == Leader
    ensures s.term in c.h.reigns && c.h.reigns[s.term] == Reign(s.id, c.h.reigns[s.term].electors, s.log)
    ensures Elected(c, s, c.h.reigns[s.term].electors)
  {
    assert ReignOk(c.members, c.h, s.term);
  }

  lemma ProposeFacts(c: Cluster, d: Cluster, s: ServerState, cmd: Option<Str>)
    requires HistoryOk(c.members, c.h, c.net) && MessagesOk(c) && ServerOk(c, s) && s.role == Leader
      && Contiguous(s.log)
    requires s.term in c.h.reigns && d.members == c.members && d.net == c.net
    requires d.h == Crown(c.h, s.term, c.h.reigns[s.term].(log := Proposed(s, cmd).log))
    ensures Grows(c, d)
    ensures forall v :: v != s.id ==> Quiet(c, d, v)
    ensures HistoryOk(d.members, d.h, d.net)
    ensures ServerOk(d, Proposed(s, cmd))
  {
    hide HistoryOk, Quiet, AppliedOk, Retains;
    SittingLeader(c, s);
    var log, electors := Proposed(s, cmd).log, c.h.reigns[s.term].electors;
    assert log[..|s.log|] == s.log;
    ExtendsGrows(c, d, s, log, electors);
    ExtendsHistory(c, d, s, log, electors);
    ProposedLeader(c, d, s, cmd);
    ExtendsServer(c, d, s, Proposed(s, cmd), electors);
  }

  lemma ProposeStep(c: Cluster, step: Step)
    requires Inv(c) && step.Propose? && Enabled(c, step) && Ready(c, step)
    ensures LogsWellFormed(c) && Inv(Next(c, step)) && Grows(c, Next(c, step))
  {
    hide HistoryOk, ServerOk, MessageOk, Quiet, AdvanceCommit;
    InvLogs(c);
    var s := c.servers[step.s];
    var me := Submit(s, step.cmd, step.saved);
    if s.role != Leader || s.stopped {
      QuietStep(c, me, {});
    } else {
      var r := Proposed(s, step.cmd);
      var d := Next(c, step);
      AdvanceKeepsLog(r, step.saved);
      SittingLeader(c, s);
      ProposeFacts(c, d, s, step.cmd);
      AdvanceOk(d, r, step.saved);
      Assemble(c, d, me, {});
    }
  }

  // ----- ReceiveAppend -----

  /** The state in which appendFrom runs: the leader's term adopted (and durable), its authority accepted. */
  function Following(s: ServerState, a: AppendArgs): ServerState {
    var s1 := if a.term > s.term then Persist(BecomeFollower(s, a.term)) else s;
    s1.(role := if s1.role == Candidate then Follower else s1.role, leaderId := a.leader)
  }

  lemma FollowingOk(c: Cluster, s: ServerState, a: AppendArgs)
    requires ServerOk(c, s) && a.term >= s.term
    ensures ServerOk(c, Following(s, a)) && Following(s, a).term == a.term
  {
    hide ServerOk;
    if a.term > s.term {
      AdoptOk(c, s, a.term);
      FollowOk(c, Persist(BecomeFollower(s, a.term)), a.leader);
    } else {
      FollowOk(c, s, a.leader);
    }
  }

  /** The receiver with its new log, before rule 5. */
  function Received(f: ServerState, log: seq<LogEntry>): ServerState {
    if log == f.log then f else Persist(f.(log := log))
  }

  /** HandleAppend, split at the points the proof needs. */
  lemma HandleAppendParts(s: ServerState, a: AppendArgs, saved: bool)
    requires Contiguous(s.log) && !s.stopped && a.term >= s.term && Synced(s)
    ensures
      var f := Following(s, a);
      if !MatchesPrev(s.log, a.prevIndex, a.prevTerm) then HandleAppend(s, a, saved) == (f, AppendReply(a.term, false))
      else
        var r := Received(f, AppendFrom(s.log, a.prevIndex, a.entries));
        HandleAppend(s, a, saved) ==
          (if a.leaderCommit > r.commitIndex
           then ApplyCommitted(r.(commitIndex := Min(a.leaderCommit, a.prevIndex + |a.entries|)), saved) else r,
           AppendReply(a.term, true))
  {
    hide MatchesPrev, AppendFrom, ApplyCommitted, Contiguous;
  }

  lemma RootedMatchesPrev(log: seq<LogEntry>, prev: nat, term: nat)
    requires Rooted(log) && Contiguous(log) && MatchesPrev(log, prev, term)
    ensures prev < |log| && log[prev].term == term && LastIndex(log) == |log| - 1
  {
  }

  lemma ReignAnchored(c: Cluster, t: nat)
    requires HistoryOk(c.members, c.h, c.net) && t in c.h.reigns
    ensures Anchored(c.h.reigns, c.h.reigns[t].log) && TermsAtMost(c.h.reigns[t].log, t)
  {
    assert ReignOk(c.members, c.h, t);
  }

  /** The log after a successful append, in terms of the reign that sent it. */
  lemma ReceivedLog(c: Cluster, f: ServerState, a: AppendArgs)
    requires HistoryOk(c.members, c.h, c.net) && Anchored(c.h.reigns, f.log) && Vouched(c, a)
    requires Contiguous(f.log) && MatchesPrev(f.log, a.prevIndex, a.prevTerm)
    ensures
      var leader := c.h.reigns[a.term].log;
      && Matching(f.log, leader)
      && a.prevIndex <= LastIndex(f.log)
      && AppendFrom(f.log, a.prevIndex, a.entries) == Overwrite(f.log, leader, a.prevIndex + |a.entries|)
  {
    hide HistoryOk, MatchesPrev, CommittedTo, Matching, Overwrite, AnchoredAt;
    var leader := c.h.reigns[a.term].log;
    ReignAnchored(c, a.term);
    AnchoredLogsMatch(c.h.reigns, f.log, leader);
    RootedMatchesPrev(f.log, a.prevIndex, a.prevTerm);
    AppendFromClosedForm(f.log, leader, a.prevIndex, a.prevIndex + |a.entries|);
  }

  lemma OverwriteAnchored(c: Cluster, log: seq<LogEntry>, leader: seq<LogEntry>, last: nat)
    requires Anchored(c.h.reigns, log) && Anchored(c.h.reigns, leader) && last < |leader| && Matching(log, leader)
    ensures Anchored(c.h.reigns, Overwrite(log, leader, last))
    ensures Agree(Overwrite(log, leader, last), leader, last)
  {
    var r := Overwrite(log, leader, last);
    if r == log {
      assert MatchAt(log, leader, last);
    } else {
      forall i | 0 < i < |r|
        ensures AnchoredAt(c.h.reigns, r, i)
      {
        assert AnchoredAt(c.h.reigns, leader, i);
        assert r[..i + 1] == leader[..i + 1];
      }
    }
  }

  /** Overwriting a log either keeps its first k entries or meets a conflict with the leader's log. */
  lemma OverwriteKeeps(log: seq<LogEntry>, leader: seq<LogEntry>, last: nat, past: seq<LogEntry>, k: nat)
    requires last < |leader| && Matching(log, leader) && Agree(log, past, k)
    ensures Agree(Overwrite(log, leader, last), past, k) || Conflict(leader, past, k)
  {
    var r := Overwrite(log, leader, last);
    if !Conflict(leader, past, k) {
      assert forall j :: 0 <= j <= k ==> log[j] == log[..k + 1][j] == past[..k + 1][j] == past[j];
      assert last <= k ==> log[last] == leader[last];
      if r != log {
        assert r[..k + 1] == leader[..k + 1] == past[..k + 1];
      }
    }
  }

  lemma ReceivedRetains(c: Cluster, d: Cluster, f: ServerState, log: seq<LogEntry>, last: nat)
    requires f.term in c.h.reigns && last < |c.h.reigns[f.term].log|
    requires Matching(f.log, c.h.reigns[f.term].log) && log == Overwrite(f.log, c.h.reigns[f.term].log, last)
    requires Agree(log, c.h.reigns[f.term].log, last)
    requires d.h == c.h && MessagesOk(c)
    requires forall m, t: nat :: m in d.net && AnswerFrom(m, f.id, t) ==> m in c.net || (t == f.term && m.sent == last)
    requires Retains(c.h.reigns, c.net, f.id, f.log, f.term + 1)
    ensures Retains(d.h.reigns, d.net, f.id, log, f.term + 1)
  {
    var leader := c.h.reigns[f.term].log;
    forall t: nat, k: nat | t < f.term + 1 && Acked(d.h.reigns, d.net, f.id, t, k)
      ensures Agree(log, c.h.reigns[t].log, k) || Overwritten(c.h.reigns, t, k, f.term + 1)
    {
      if Acked(c.h.reigns, c.net, f.id, t, k) {
        if Agree(f.log, c.h.reigns[t].log, k) {
          OverwriteKeeps(f.log, leader, last, c.h.reigns[t].log, k);
          if t == f.term {
            NoSelfConflict(leader, k);
          }
        }
      } else {
        assert t == f.term && k <= last;
        assert log[..k + 1] == log[..last + 1][..k + 1] == leader[..last + 1][..k + 1] == leader[..k + 1];
      }
    }
  }

  lemma NoSelfConflict(log: seq<LogEntry>, k: nat)
    ensures !Conflict(log, log, k)
  {
  }

  /** A leader of the current or a later term never overwrites what is committed. */
  lemma CommitSurvives(c: Cluster, f: ServerState, k: nat, last: nat)
    requires HistoryOk(c.members, c.h, c.net) && f.term in c.h.reigns && last < |c.h.reigns[f.term].log|
    requires Rooted(f.log) && Rooted(c.h.reigns[f.term].log) && Matching(f.log, c.h.reigns[f.term].log)
    requires CommittedTo(c, f.log, k, f.term) && k < |f.log|
    ensures Agree(f.log, Overwrite(f.log, c.h.reigns[f.term].log, last), k)
  {
    hide HistoryOk, Quorum, AckedBy;
    var leader := c.h.reigns[f.term].log;
    var r := Overwrite(f.log, leader, last);
    if k == 0 {
      assert r[..1] == [SENTINEL] == f.log[..1];
    } else {
      var t: nat, n: nat :| t <= f.term && k <= n && CommitPoint(c, t, n) && Agree(f.log, c.h.reigns[t].log, k);
      CommitInLeader(c, t, n, f.term, k);
      OverwriteKeeps(f.log, leader, last, f.log, k);
      assert Agree(leader, f.log, k);
      AgreeNoConflict(leader, f.log, k);
    }
  }

  lemma CommitInLeader(c: Cluster, t: nat, n: nat, later: nat, k: nat)
    requires HistoryOk(c.members, c.h, c.net) && CommitPoint(c, t, n) && t <= later && later in c.h.reigns && k <= n
    ensures Agree(c.h.reigns[later].log, c.h.reigns[t].log, k)
  {
    hide HistoryOk, AckedBy;
    var a, b := c.h.reigns[later].log, c.h.reigns[t].log;
    if t < later {
      LeaderCompleteness(c, t, n, later);
    }
    assert a[..k + 1] == a[..n + 1][..k + 1] == b[..n + 1][..k + 1] == b[..k + 1];
  }

  lemma ReceivedApplied(c: Cluster, f: ServerState, r: ServerState, last: nat)
    requires HistoryOk(c.members, c.h, c.net) && AppliedOk(c, f)
    requires f.term in c.h.reigns && last < |c.h.reigns[f.term].log|
    requires Rooted(c.h.reigns[f.term].log) && Matching(f.log, c.h.reigns[f.term].log)
    requires r == Received(f, Overwrite(f.log, c.h.reigns[f.term].log, last)) && Rooted(r.log)
    ensures AppliedOk(c, r)
  {
    hide HistoryOk, Matching, Overwrite, CommittedTo;
    CommitSurvives(c, f, f.commitIndex, last);
    CommittedToMoves(c, f.log, r.log, f.commitIndex, f.term, r.term);
    var k := f.lastApplied;
    assert f.log[..k + 1] == f.log[..f.commitIndex + 1][..k + 1] == r.log[..f.commitIndex + 1][..k + 1] == r.log[..k + 1];
    CommandsAgree(f.log, r.log, k);
  }

  lemma ReceivedLeader(c: Cluster, f: ServerState, r: ServerState, last: nat)
    requires LeaderOk(c, f) && f.term in c.h.reigns && last < |c.h.reigns[f.term].log|
    requires r == Received(f, Overwrite(f.log, c.h.reigns[f.term].log, last))
    ensures LeaderOk(c, r)
  {
  }

  lemma ReceivedOk(c: Cluster, d: Cluster, f: ServerState, r: ServerState, last: nat)
    requires HistoryOk(c.members, c.h, c.net) && MessagesOk(c) && ServerOk(c, f)
    requires f.term in c.h.reigns && last < |c.h.reigns[f.term].log|
    requires Matching(f.log, c.h.reigns[f.term].log)
    requires r == Received(f, Overwrite(f.log, c.h.reigns[f.term].log, last))
    requires Grows(c, d) && d.h == c.h
    requires forall m, t: nat :: m in d.net && AnswerFrom(m, f.id, t) ==> m in c.net || (t == f.term && m.sent == last)
    ensures ServerOk(d, r)
    ensures Agree(r.log, c.h.reigns[f.term].log, last)
  {
    hide HistoryOk, Matching, Overwrite, AnchoredAt, Retains, MessageOk, LeaderOk, AppliedOk, Agree, TermBounds,
         VoteOk, CandidateOk;
    var leader := c.h.reigns[f.term].log;
    ReignAnchored(c, f.term);
    OverwriteAnchored(c, f.log, leader, last);
    ReceivedRetains(c, d, f, r.log, last);
    ReceivedApplied(c, f, r, last);
    AppliedGrows(c, d, r);
    ReceivedLeader(c, f, r, last);
    LeaderGrows(c, d, r);
    ReceivedPromises(c, d, f, r, last);
  }

  lemma ReceivedPromises(c: Cluster, d: Cluster, f: ServerState, r: ServerState, last: nat)
    requires f.term in c.h.reigns && last < |c.h.reigns[f.term].log| && TermsAtMost(c.h.reigns[f.term].log, f.term)
    requires r == Received(f, Overwrite(f.log, c.h.reigns[f.term].log, last))
    requires d.members == c.members && d.h == c.h && TermBounds(c, f) && VoteOk(c, f) && CandidateOk(c, f)
    requires forall m, t: nat :: m in d.net && AnswerFrom(m, f.id, t) ==> m in c.net || (t == f.term && m.sent == last)
    ensures TermBounds(d, r) && VoteOk(d, r) && CandidateOk(d, r)
  {
    hide Overwrite;
    ReceivedTerms(f.log, c.h.reigns[f.term].log, last, f.term);
  }

  lemma AppliedGrows(c: Cluster, d: Cluster, s: ServerState)
    requires AppliedOk(c, s) && Grows(c, d)
    ensures AppliedOk(d, s)
  {
    CommittedToGrows(c, d, s.log, s.commitIndex, s.term);
  }

  lemma LeaderGrows(c: Cluster, d: Cluster, s: ServerState)
    requires LeaderOk(c, s) && Grows(c, d) && d.h == c.h
    ensures LeaderOk(d, s)
  {
    hide MatchOk;
    if s.role == Leader {
      forall p | p in d.members
        ensures MatchOk(d, s, p)
      {
        MatchOkGrows(c, d, s, p);
      }
    }
  }

  lemma ReceivedTerms(log: seq<LogEntry>, leader: seq<LogEntry>, last: nat, t: nat)
    requires TermsAtMost(log, t) && TermsAtMost(leader, t) && last < |leader|
    ensures TermsAtMost(Overwrite(log, leader, last), t)
  {
  }

  /** Rule 5: the commit index a leader sends is covered by a commit point it knew. */
  lemma CommitRuleOk(d: Cluster, r: ServerState, a: AppendArgs)
    requires ServerOk(d, r) && Vouched(d, a) && r.term == a.term
    requires Agree(r.log, d.h.reigns[a.term].log, a.prevIndex + |a.entries|)
    requires a.leaderCommit > r.commitIndex
    ensures ServerOk(d, r.(commitIndex := Min(a.leaderCommit, a.prevIndex + |a.entries|)))
  {
    var k, leader := a.leaderCommit, d.h.reigns[a.term].log;
    var last := a.prevIndex + |a.entries|;
    assert r.log[..k + 1] == r.log[..last + 1][..k + 1] == leader[..last + 1][..k + 1] == leader[..k + 1];
    CommittedToMoves(d, leader, r.log, k, a.term, a.term);
    var s := r.(commitIndex := k);
    assert Synced(s) && TermBounds(d, s) && VoteOk(d, s) && CandidateOk(d, s) && LeaderOk(d, s) && AppliedOk(d, s);
  }

  /** The receiver after a successful append, in the cluster that already holds its answer. */
  lemma AcceptedOk(c: Cluster, d: Cluster, s: ServerState, a: AppendArgs, saved: bool)
    requires HistoryOk(c.members, c.h, c.net) && MessagesOk(c) && ServerOk(c, s) && Vouched(c, a)
    requires Contiguous(s.log) && !s.stopped && a.term >= s.term && MatchesPrev(s.log, a.prevIndex, a.prevTerm)
    requires Grows(c, d) && d.h == c.h
    requires forall m, t: nat :: m in d.net && AnswerFrom(m, s.id, t) ==>
      m in c.net || (t == a.term && m.sent == a.prevIndex + |a.entries|)
    ensures ServerOk(d, HandleAppend(s, a, saved).0)
  {
    hide HistoryOk, Vouched, Overwrite, Matching, MatchesPrev, TermBounds, VoteOk, CandidateOk, LeaderOk, AppliedOk,
         Retains, ApplyCommitted, HandleAppend, Agree;
    var f := Following(s, a);
    FollowingOk(c, s, a);
    assert f.log == s.log && f.id == s.id;
    ReceivedLog(c, f, a);
    AppendInRange(c, a);
    var r := Received(f, AppendFrom(s.log, a.prevIndex, a.entries));
    ReceivedOk(c, d, f, r, a.prevIndex + |a.entries|);
    HandleAppendParts(s, a, saved);
    if a.leaderCommit > r.commitIndex {
      VouchedGrows(c, d, a);
      CommitRuleOk(d, r, a);
      ApplyOk(d, r.(commitIndex := Min(a.leaderCommit, a.prevIndex + |a.entries|)), saved);
    }
  }

  lemma AppendInRange(c: Cluster, a: AppendArgs)
    requires Vouched(c, a)
    ensures a.term in c.h.reigns && a.prevIndex + |a.entries| < |c.h.reigns[a.term].log|
  {
  }

  /** A new acknowledgement is of the receiver's current term, so no ballot is older than it. */
  lemma AcceptedHistory(c: Cluster, d: Cluster, s: ServerState, a: AppendArgs, sent: set<Message>)
    requires HistoryOk(c.members, c.h, c.net) && MessagesOk(c) && TermBounds(c, s) && a.term >= s.term
    requires Grows(c, d) && d.h == c.h && d.net == c.net + sent
    requires forall m :: m in sent ==> m.AppendAnswer? && m.from == s.id && m.reqTerm == a.term
    ensures HistoryOk(d.members, d.h, d.net)
  {
    forall t, v | (t, v) in d.h.ballots && Counts(d.h, t, v)
      ensures Retains(d.h.reigns, d.net, v, d.h.ballots[(t, v)].log, t)
    {
      AcceptedAcks(c, d, s, a, sent, v, t);
      RetainsGrows(c, d, v, c.h.ballots[(t, v)].log, t);
    }
  }

  lemma AcceptedAcks(c: Cluster, d: Cluster, s: ServerState, a: AppendArgs, sent: set<Message>, v: NodeId, bound: nat)
    requires d.h == c.h && d.net == c.net + sent
    requires v == s.id ==> bound <= a.term
    requires forall m :: m in sent ==> m.AppendAnswer? && m.from == s.id && m.reqTerm == a.term
    ensures NoNewAcks(c, d, v, bound)
  {
    forall t: nat, k: nat | t < bound && Acked(d.h.reigns, d.net, v, t, k)
      ensures Acked(c.h.reigns, c.net, v, t, k)
    {
      if c.h.reigns[t].leader != v {
        var m :| m in d.net && AnswerFrom(m, v, t) && k <= m.sent;
        assert m in c.net;
      }
    }
  }

  lemma AcceptedStep(c: Cluster, s: ServerState, a: AppendArgs, saved: bool)
    requires Inv(c) && s.id in c.servers && ServerOk(c, s) && AppendRequest(a) in c.net
    requires Contiguous(s.log) && !s.stopped && a.term >= s.term && MatchesPrev(s.log, a.prevIndex, a.prevTerm)
    ensures
      var (me, r) := HandleAppend(s, a, saved);
      var d := Update(c, me, {AppendAnswer(s.id, a.leader, a.term, a.prevIndex + |a.entries|, r)}, c.h);
      Inv(d) && Grows(c, d)
  {
    hide HistoryOk, ServerOk, Vouched, OwnTerm, MatchesPrev, HandleAppend;
    var (me, r) := HandleAppend(s, a, saved);
    assert MessageOk(c, AppendRequest(a));
    var sent := {AppendAnswer(s.id, a.leader, a.term, a.prevIndex + |a.entries|, r)};
    var d := Update(c, me, sent, c.h);
    AppendKeepsId(s, a, saved);
    assert Grows(c, d);
    assert forall v :: v != s.id ==> Quiet(c, d, v);
    ServerTermBounds(c, s);
    AcceptedHistory(c, d, s, a, sent);
    AcceptedOk(c, d, s, a, saved);
    AnswerOk(c, d, s, a, r);
    Assemble(c, d, me, sent);
  }

  lemma AppendKeepsId(s: ServerState, a: AppendArgs, saved: bool)
    requires Contiguous(s.log)
    ensures HandleAppend(s, a, saved).0.id == s.id
  {
    hide AppendFrom, Commands, MatchesPrev, Contiguous;
    if MatchesPrev(s.log, a.prevIndex, a.prevTerm) {
      MatchesPrevInRange(s.log, a.prevIndex, a.prevTerm);
    }
  }

  lemma ServerTermBounds(c: Cluster, s: ServerState)
    requires ServerOk(c, s)
    ensures TermBounds(c, s) && s.id in c.members && Synced(s)
  {
  }

  lemma AnswerOk(c: Cluster, d: Cluster, s: ServerState, a: AppendArgs, r: AppendReply)
    requires Vouched(c, a) && Grows(c, d) && s.id in c.members
    ensures MessageOk(d, AppendAnswer(s.id, a.leader, a.term, a.prevIndex + |a.entries|, r))
  {
  }

  lemma RejectedStep(c: Cluster, s: ServerState, a: AppendArgs, saved: bool)
    requires Inv(c) && s.id in c.servers && ServerOk(c, s) && Contiguous(s.log)
    requires s.stopped || a.term < s.term || !MatchesPrev(s.log, a.prevIndex, a.prevTerm)
    ensures
      var (me, r) := HandleAppend(s, a, saved);
      var d := Update(c, me, {AppendAnswer(s.id, a.leader, a.term, a.prevIndex + |a.entries|, r)}, c.h);
      Inv(d) && Grows(c, d)
  {
    hide HistoryOk, MessageOk, ServerOk, MatchesPrev, HandleAppend;
    var (me, r) := HandleAppend(s, a, saved);
    RejectedOk(c, s, a, saved);
    QuietStep(c, me, {AppendAnswer(s.id, a.leader, a.term, a.prevIndex + |a.entries|, r)});
  }

  lemma RejectedOk(c: Cluster, s: ServerState, a: AppendArgs, saved: bool)
    requires ServerOk(c, s) && Contiguous(s.log)
    requires s.stopped || a.term < s.term || !MatchesPrev(s.log, a.prevIndex, a.prevTerm)
    ensures
      var (me, r) := HandleAppend(s, a, saved);
      && ServerOk(c, me) && me.id == s.id && !r.success
      && MessageOk(c, AppendAnswer(s.id, a.leader, a.term, a.prevIndex + |a.entries|, r))
  {
    hide TermBounds, VoteOk, CandidateOk, LeaderOk, AppliedOk, Retains, MatchesPrev;
    if !s.stopped && a.term >= s.term {
      FollowingOk(c, s, a);
      HandleAppendParts(s, a, saved);
    }
  }

  lemma AppendStep(c: Cluster, step: Step)
    requires Inv(c) && step.ReceiveAppend? && Enabled(c, step) && Ready(c, step)
    ensures LogsWellFormed(c) && Inv(Next(c, step)) && Grows(c, Next(c, step))
  {
    hide HistoryOk, MessageOk, ServerOk, MatchesPrev, HandleAppend, Contiguous;
    InvLogs(c);
    var s, a := c.servers[step.s], step.m.append;
    assert step.m == AppendRequest(a);
    if s.stopped || a.term < s.term || !MatchesPrev(s.log, a.prevIndex, a.prevTerm) {
      RejectedStep(c, s, a, step.saved);
    } else {
      AcceptedStep(c, s, a, step.saved);
    }
  }
}
