/**
 Compaction is invisible over whole runs: a server compacted at any moments answers every event
 as one that never compacted, and the protocol of RaftCluster.dfy only ever delivers requests for
 which this holds.
 */
module RaftInvisible {
  import opened Bytes
  import opened RaftLog
  import opened RaftState
  import opened RaftCluster
  import opened RaftInvariant
  import opened RaftReplication
  import opened RaftRuns
  import opened RaftCompaction

  datatype Event =
    | OnAppend(append: AppendArgs, saved: bool)
    | OnVote(ask: VoteArgs, recent: bool)
    | OnTimeout
    | OnVoteReply(from: NodeId, reqTerm: nat, vote: VoteReply)
    | OnElected(saved: bool)
    | OnSubmit(command: Option<Str>, saved: bool)
    | OnAppendReply(peer: NodeId, reqTerm: nat, sent: nat, reply: AppendReply, saved: bool)
    | OnCompact(threshold: nat, point: CrashPoint)

  /** What the rest of the cluster sees of an event. */
  datatype Answer = Appended(AppendReply) | Voted(VoteReply) | Asked(VoteArgs) | Quiet

  ghost function Handle(s: ServerState, e: Event): (ServerState, Answer)
    requires Contiguous(s.log)
  {
    match e
    case OnAppend(a, saved) => var (s', r) := HandleAppend(s, a, saved); (s', Appended(r))
    case OnVote(a, recent) => var (s', r) := HandleVote(s, a, recent); (s', Voted(r))
    case OnTimeout => (StartElection(s), Asked(CampaignArgs(StartElection(s))))
    case OnVoteReply(from, t, r) => (HandleVoteReply(s, from, t, r), Quiet)
    case OnElected(saved) => (BecomeLeader(s, saved), Quiet)
    case OnSubmit(cmd, saved) => (Submit(s, cmd, saved), Quiet)
    case OnAppendReply(p, t, sent, r, saved) => (HandleAppendReply(s, p, t, sent, r, saved), Quiet)
    case OnCompact(threshold, point) => (MaybeCompact(s, threshold, point), Quiet)
  }

  /** The server that never compacts. */
  ghost function HandleFull(s: ServerState, e: Event): (ServerState, Answer)
    requires Contiguous(s.log)
  {
    if e.OnCompact? then (s, Quiet) else Handle(s, e)
  }

  /** Every request that is not stale when it arrives agrees with what the server has committed. */
  ghost predicate ConsistentRun(f: ServerState, events: seq<Event>)
    decreases |events|
  {
    events != [] ==>
      && Contiguous(f.log) && f.commitIndex < |f.log|
      && (events[0].OnAppend? && events[0].append.term >= f.term ==> Consistent(events[0].append, f))
      && ConsistentRun(HandleFull(f, events[0]).0, events[1..])
  }

  /** Event by event, the two servers give the same answers and stay related. */
  ghost predicate Indistinguishable(c: ServerState, f: ServerState, events: seq<Event>)
    decreases |events|
  {
    && Refines(c, f)
    && (events != [] ==>
          && Contiguous(c.log) && Contiguous(f.log)
          && Handle(c, events[0]).1 == HandleFull(f, events[0]).1
          && Indistinguishable(Handle(c, events[0]).0, HandleFull(f, events[0]).0, events[1..]))
  }

  lemma EventRefines(c: ServerState, f: ServerState, e: Event)
    requires Refines(c, f) && (e.OnAppend? && e.append.term >= f.term ==> Consistent(e.append, f))
    ensures Contiguous(c.log) && Contiguous(f.log)
    ensures Handle(c, e).1 == HandleFull(f, e).1 && Refines(Handle(c, e).0, HandleFull(f, e).0)
  {
    hide Refines, Consistent, HandleAppend, HandleVote, StartElection, HandleVoteReply, BecomeLeader, Submit,
         HandleAppendReply, MaybeCompact, CampaignArgs;
    RefinesLogs(c, f);
    match e
    case OnAppend(a, saved) => AppendRefines(c, f, a, saved);
    case OnVote(a, recent) => VoteRefines(c, f, a, recent);
    case OnTimeout => ElectionRefines(c, f, [], 0, VoteReply(0, false));
    case OnVoteReply(from, t, r) => ElectionRefines(c, f, from, t, r);
    case OnElected(saved) => LeadRefines(c, f, saved);
    case OnSubmit(cmd, saved) => SubmitRefines(c, f, cmd, saved);
    case OnAppendReply(p, t, sent, r, saved) => ReplyRefines(c, f, p, t, sent, r, saved);
    case OnCompact(threshold, point) => CompactionStutters(c, f, threshold, point);
  }

  /** For every sequence of events, with compactions anywhere in it. */
  lemma {:induction false} CompactionInvisible(c: ServerState, f: ServerState, events: seq<Event>)
    requires Refines(c, f) && ConsistentRun(f, events)
    ensures Indistinguishable(c, f, events)
    decreases |events|
  {
    hide Refines, Handle, HandleFull, Consistent;
    if events != [] {
      EventRefines(c, f, events[0]);
      CompactionInvisible(Handle(c, events[0]).0, HandleFull(f, events[0]).0, events[1..]);
    }
  }

  // ----- the hypotheses hold of the protocol -----

  /** What a server has committed is in the log of every leader whose term it has not passed. */
  lemma CommittedInReign(c: Cluster, s: ServerState, t: nat)
    requires HistoryOk(c.members, c.h, c.net) && AppliedOk(c, s) && s.term <= t && t in c.h.reigns
    ensures Rooted(c.h.reigns[t].log) && Agree(s.log, c.h.reigns[t].log, s.commitIndex)
  {
    hide HistoryOk, AckedBy, Quorum, Commands;
    var k, leader := s.commitIndex, c.h.reigns[t].log;
    ReignAnchored(c, t);
    if k == 0 {
      assert leader[..1] == [SENTINEL] == s.log[..1];
    } else {
      var u: nat, n: nat :| u <= s.term && k <= n && CommitPoint(c, u, n) && Agree(s.log, c.h.reigns[u].log, k);
      CommitInLeader(c, u, n, t, k);
    }
  }

  /** In any state that satisfies the invariant, a request agrees with what its receiver has committed. */
  lemma InvConsistent(c: Cluster, p: NodeId, a: AppendArgs)
    requires Inv(c) && p in c.servers && AppendRequest(a) in c.net && a.term >= c.servers[p].term
    ensures c.servers[p].commitIndex < |c.servers[p].log| && Consistent(a, c.servers[p])
  {
    hide HistoryOk, CommittedTo, ServerOk, Vouched, OwnTerm;
    var s := c.servers[p];
    assert MessageOk(c, AppendRequest(a)) && Sound(c, s);
    AppliedPart(c, Settled(s));
    AppendInRange(c, a);
    CommittedInReign(c, Settled(s), a.term);
    PrefixConsistent(c, s, a);
  }

  /** Every AppendEntries request of a run is consistent with any server it is not stale for. */
  lemma ProtocolConsistent(run: seq<Cluster>, i: nat, p: NodeId, a: AppendArgs)
    requires Run(run) && Present(run, i, p) && AppendRequest(a) in run[i].net && a.term >= At(run, i, p).term
    ensures At(run, i, p).commitIndex < |At(run, i, p).log| && Consistent(a, At(run, i, p))
  {
    hide Inv, Run, Consistent;
    RunInv(run, i);
    InvConsistent(run[i], p, a);
  }

  lemma AppliedPart(c: Cluster, s: ServerState)
    requires ServerOk(c, s)
    ensures AppliedOk(c, s)
  {
  }

  lemma PrefixConsistent(c: Cluster, s: ServerState, a: AppendArgs)
    requires s.commitIndex < |s.log| && Vouched(c, a) && Agree(s.log, c.h.reigns[a.term].log, s.commitIndex)
    ensures Consistent(a, s)
  {
    hide CommittedTo;
    var leader, k := c.h.reigns[a.term].log, s.commitIndex;
    forall j | 0 <= j <= k
      ensures s.log[j] == leader[j]
    {
      assert s.log[j] == s.log[..k + 1][j] == leader[..k + 1][j];
    }
  }

  /** The snapshot of any server of a run satisfies what InstallRefines asks of its receiver. */
  lemma ProtocolInstallable(run: seq<Cluster>, i: nat, p: NodeId, j: nat, q: NodeId)
    requires Run(run) && Present(run, i, p) && Present(run, j, q)
    ensures
      var s, l := At(run, i, p), At(run, j, q);
      var n := l.lastApplied;
      && n < |l.log| && Rooted(l.log[..n + 1])
      && Matching(s.log, l.log[..n + 1]) && Agree(s.log, l.log[..n + 1], Min(s.commitIndex, n))
  {
    hide HistoryOk, CommittedTo, ServerOk, Commands;
    var k := if i <= j then j else i;
    var s, l := At(run, i, p), At(run, j, q);
    ServerAt(run, i, p);
    ServerAt(run, j, q);
    ServerRooted(run[i], Settled(s));
    ServerRooted(run[j], Settled(l));
    AnchoredLater(run, i, k, p);
    AnchoredLater(run, j, k, q);
    RunInv(run, k);
    var n := l.lastApplied;
    if s.commitIndex <= l.commitIndex {
      CommittedAgree(run[k], s.log, s.commitIndex, s.term, l.log, l.commitIndex, l.term);
    } else {
      CommittedAgree(run[k], l.log, l.commitIndex, l.term, s.log, s.commitIndex, s.term);
    }
    AgreeShorter(s.log, l.log, Min(s.commitIndex, l.commitIndex), Min(s.commitIndex, n), n);
    LogMatching(run, i, p, j, q);
    MatchingPrefix(s.log, l.log, n);
  }

  lemma AgreeShorter(a: seq<LogEntry>, b: seq<LogEntry>, m: nat, k: nat, n: nat)
    requires m < |a| && m < |b| && a[..m + 1] == b[..m + 1] && k <= m && k <= n < |b|
    ensures Agree(a, b[..n + 1], k)
  {
    assert a[..k + 1] == a[..m + 1][..k + 1] == b[..m + 1][..k + 1] == b[..k + 1] == b[..n + 1][..k + 1];
  }

  lemma MatchingPrefix(a: seq<LogEntry>, b: seq<LogEntry>, n: nat)
    requires Matching(a, b) && n < |b|
    ensures Matching(a, b[..n + 1])
  {
    var cut := b[..n + 1];
    forall i: nat
      ensures MatchAt(a, cut, i)
    {
      assert MatchAt(a, b, i);
      assert i <= n ==> cut[..i + 1] == b[..i + 1];
    }
  }
}
