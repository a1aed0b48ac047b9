/**
 The cluster works: from its start, any member can be elected and have every server apply a command.  A protocol
 that is safe because it refuses everything has no such run.
 */
module RaftReach {
  import opened Bytes
  import opened RaftLog
  import opened RaftState
  import opened RaftCluster
  import opened RaftInvariant
  import opened RaftSteps
  import opened RaftRuns
  import opened RaftAnswers
  import RaftCompacting
  import RaftReplication

  // ----- runs, step by step -----

  ghost function Now(run: seq<Cluster>): Cluster
    requires |run| > 0
  {
    run[|run| - 1]
  }

  ghost predicate Continues(run: seq<Cluster>, more: seq<Cluster>) {
    && Run(run) && Run(more) && |more| >= |run| > 0 && more[..|run|] == run
    && Now(more).members == Now(run).members && Now(more).servers.Keys == Now(run).servers.Keys
    && Now(run).net <= Now(more).net
  }

  lemma Go(run: seq<Cluster>, step: Step) returns (more: seq<Cluster>)
    requires |run| > 0 && Run(run) && Enabled(Now(run), step) && !step.CrashRestart?
    ensures Continues(run, more)
    ensures WellAddressed(step) && Contiguous(Now(run).servers[step.s].log)
    ensures Now(run).servers[step.s].id == step.s
    ensures Now(more).servers == Now(run).servers[step.s := After(Now(run).servers[step.s], step)]
    ensures (step.Offer? ==> step.upto < |Now(run).servers[step.s].log|)
      && Now(more).net == Now(run).net + Sent(Now(run).servers[step.s], step)
  {
    hide After, Sent, Next, HistoryOk, MessageOk, ServerOk;
    var n := |run| - 1;
    RunInv(run, n);
    NextShape(run[n], step);
    RaftCompacting.FullId(run[n], step);
    RaftCompacting.ExtendRun(run, step);
    more := run + [Next(run[n], step)];
  }

  lemma ContinuesOn(a: seq<Cluster>, b: seq<Cluster>, c: seq<Cluster>)
    requires Continues(a, b) && Continues(b, c)
    ensures Continues(a, c)
  {
    hide Run;
    assert c[..|a|] == c[..|b|][..|a|];
  }

  // ----- the election -----

  function Fresh(members: seq<NodeId>, p: NodeId): ServerState { NewServer(p, members, Disk(None, 0, None)) }

  function Standing(members: seq<NodeId>, l: NodeId): ServerState { StartElection(Fresh(members, l)) }

  const FIRST_TERM: nat := 1

  function Ballots(l: NodeId): VoteArgs { VoteArgs(FIRST_TERM, l, 0, 0) }

  /** The candidate l has the votes of the first k members. */
  ghost predicate Polled(c: Cluster, l: NodeId, k: nat)
    requires k <= |c.members| && l in c.members
  {
    && (forall p :: p in c.members <==> p in c.servers)
    && c.servers[l] == Standing(c.members, l).(votes := {l} + set p | p in c.members[..k])
    && (forall j :: 0 <= j < |c.members| ==> Place(c, l, k, j))
    && VoteRequest(Ballots(l)) in c.net
  }

  ghost predicate Place(c: Cluster, l: NodeId, k: nat, j: nat)
    requires j < |c.members|
  {
    var p := c.members[j];
    p != l ==> p in c.servers && c.servers[p] == if j < k then Voter(c.members, p, l) else Fresh(c.members, p)
  }

  lemma Campaigning(members: seq<NodeId>, l: NodeId) returns (run: seq<Cluster>)
    requires Distinct(members) && l in members
    ensures |run| > 0 && Run(run) && run[0] == Initial(members) && Now(run).members == members && Polled(Now(run), l, 0)
  {
    var start := [Initial(members)];
    run := Go(start, Campaign(l));
  }

  lemma {:induction false} Polling(run: seq<Cluster>, l: NodeId, k: nat) returns (more: seq<Cluster>)
    requires |run| > 0 && Run(run) && k <= |Now(run).members| && l in Now(run).members && Distinct(Now(run).members)
    requires Polled(Now(run), l, 0)
    ensures Continues(run, more) && Polled(Now(more), l, k)
    decreases k
  {
    hide Run;
    if k == 0 {
      more := run;
    } else {
      var polled := Polling(run, l, k - 1);
      more := PollOne(polled, l, k - 1);
      ContinuesOn(run, polled, more);
    }
  }

  function Voter(members: seq<NodeId>, p: NodeId, l: NodeId): ServerState {
    HandleVote(Fresh(members, p), Ballots(l), false).0
  }

  lemma Grants(members: seq<NodeId>, p: NodeId, l: NodeId)
    ensures HandleVote(Fresh(members, p), Ballots(l), false).1 == VoteReply(FIRST_TERM, true)
  {
    VoteExactly(Fresh(members, p), Ballots(l), false);
  }

  /** The next member is asked, grants its vote, and the vote is counted. */
  lemma PollOne(run: seq<Cluster>, l: NodeId, k: nat) returns (more: seq<Cluster>)
    requires |run| > 0 && Run(run) && k < |Now(run).members| && l in Now(run).members && Distinct(Now(run).members)
    requires Polled(Now(run), l, k)
    ensures Continues(run, more) && Polled(Now(more), l, k + 1)
  {
    hide Run, Distinct, Polled, Voter, Fresh, Standing, Ballots;
    var c := Now(run);
    var p := c.members[k];
    PolledFacts(c, l, k);
    if p == l {
      more := run;
      PolledSelf(c, l, k);
    } else {
      var asked := AskOne(run, l, p);
      assert Now(asked).servers[l] == c.servers[l];
      more := CountOne(asked, l, p);
      ContinuesOn(run, asked, more);
      PolledStep(c, Now(more), l, k);
    }
  }

  lemma PolledFacts(c: Cluster, l: NodeId, k: nat)
    requires k < |c.members| && l in c.members && Polled(c, l, k)
    ensures l in c.servers && c.servers[l].role == Candidate && c.servers[l].term == FIRST_TERM
    ensures VoteRequest(Ballots(l)) in c.net && c.members[k] in c.servers
    ensures c.members[k] != l ==> c.servers[c.members[k]] == Fresh(c.members, c.members[k])
  {
    hide Voter;
    assert Place(c, l, k, k);
  }

  lemma PolledSelf(c: Cluster, l: NodeId, k: nat)
    requires k < |c.members| && c.members[k] == l && Polled(c, l, k) && Distinct(c.members)
    ensures Polled(c, l, k + 1)
  {
    hide Voter, Fresh, Standing, Ballots;
    assert c.members[..k + 1] == c.members[..k] + [l];
    var n := k + 1;
    forall j | 0 <= j < |c.members|
      ensures Place(c, l, n, j)
    {
      assert Place(c, l, k, j);
    }
  }

  lemma AskOne(run: seq<Cluster>, l: NodeId, p: NodeId) returns (more: seq<Cluster>)
    requires |run| > 0 && Run(run) && p in Now(run).servers && VoteRequest(Ballots(l)) in Now(run).net
    requires Now(run).servers[p] == Fresh(Now(run).members, p)
    ensures Continues(run, more)
    ensures Now(more).servers == Now(run).servers[p := Voter(Now(run).members, p, l)]
    ensures VoteAnswer(p, l, FIRST_TERM, VoteReply(FIRST_TERM, true)) in Now(more).net
  {
    hide Run, HandleVote;
    more := Go(run, ReceiveVote(p, VoteRequest(Ballots(l)), false));
    Grants(Now(run).members, p, l);
  }

  lemma CountOne(run: seq<Cluster>, l: NodeId, p: NodeId) returns (more: seq<Cluster>)
    requires |run| > 0 && Run(run) && l in Now(run).servers
    requires VoteAnswer(p, l, FIRST_TERM, VoteReply(FIRST_TERM, true)) in Now(run).net
    requires Now(run).servers[l].role == Candidate && Now(run).servers[l].term == FIRST_TERM
    ensures Continues(run, more)
    ensures
      var s := Now(run).servers[l];
      Now(more).servers == Now(run).servers[l := s.(votes := s.votes + {p})]
  {
    hide Run;
    more := Go(run, ReceiveVoteAnswer(l, VoteAnswer(p, l, FIRST_TERM, VoteReply(FIRST_TERM, true))));
  }

  lemma PolledStep(c: Cluster, d: Cluster, l: NodeId, k: nat)
    requires k < |c.members| && l in c.members && Distinct(c.members) && c.members[k] != l && Polled(c, l, k)
    requires d.members == c.members && c.net <= d.net
    requires
      var p, s := c.members[k], c.servers[l];
      d.servers == c.servers[p := Voter(c.members, p, l)][l := s.(votes := s.votes + {p})]
    ensures Polled(d, l, k + 1)
  {
    hide Voter, Fresh, Standing, Ballots, Place;
    assert c.members[..k + 1] == c.members[..k] + [c.members[k]];
    var n := k + 1;
    forall j | 0 <= j < |c.members|
      ensures Place(d, l, n, j)
    {
      assert Place(c, l, k, j);
      PlaceStep(c, d, l, k, j);
    }
  }

  lemma PlaceStep(c: Cluster, d: Cluster, l: NodeId, k: nat, j: nat)
    requires k < |c.members| && j < |c.members| && Distinct(c.members) && c.members[k] != l && Place(c, l, k, j)
    requires d.members == c.members && l in d.servers
    requires d.servers == c.servers[c.members[k] := Voter(c.members, c.members[k], l)][l := d.servers[l]]
    ensures Place(d, l, k + 1, j)
  {
    hide Voter, Fresh;
  }

  // ----- taking the lead and proposing -----

  /** The log of the first reign: its no-op and the command. */
  function Reigned(cmd: Str): seq<LogEntry> {
    [SENTINEL, LogEntry(FIRST_TERM, 1, None), LogEntry(FIRST_TERM, 2, Some(cmd))]
  }

  /** Nothing that could be committed is left uncommitted or unapplied. */
  ghost predicate Drained(s: ServerState) {
    && Contiguous(s.log) && Applying(s) && s.lastApplied == s.commitIndex
    && forall n :: s.commitIndex < n <= LastIndex(s.log) ==> !MajorityHolds(s, n)
  }

  lemma AdvanceDrains(s: ServerState)
    requires Contiguous(s.log) && Applying(s) && s.lastApplied == s.commitIndex && s.role == Leader && Distinct(s.peers)
    ensures
      var r := AdvanceCommit(s, true);
      && Drained(r)
      && r == s.(fed := r.fed, lastApplied := r.lastApplied, disk := r.disk, commitIndex := r.commitIndex)
  {
    hide ScanDown, ApplyCommitted;
    CommitExactly(s, true);
    var n := ScanDown(s, LastIndex(s.log));
    ApplyReachesCommit(s.(commitIndex := n), true);
    var r := AdvanceCommit(s, true);
    forall i: nat
      ensures Contiguous(r.log) && MajorityHolds(r, i) == MajorityHolds(s, i)
    {
      SameHolders(s, r, i);
    }
  }

  lemma SameHolders(s: ServerState, r: ServerState, n: nat)
    requires Contiguous(s.log) && r.log == s.log && r.peers == s.peers && r.matchIndex == s.matchIndex && r.term == s.term
    ensures MajorityHolds(s, n) == MajorityHolds(r, n)
  {
  }

  lemma {:induction false} DistinctSize(members: seq<NodeId>)
    requires Distinct(members)
    ensures |set p | p in members| == |members|
    decreases |members|
  {
    if members != [] {
      var k := |members| - 1;
      DistinctLast(members);
      DistinctSize(members[..k]);
      assert (set p | p in members) == (set p | p in members[..k]) + {members[k]};
    }
  }

  /** l leads the first term with this log, and has committed what it could. */
  ghost predicate Reigning(s: ServerState, members: seq<NodeId>, l: NodeId, log: seq<LogEntry>) {
    && s.role == Leader && s.term == FIRST_TERM && s.id == l && s.peers == members && !s.stopped
    && s.log == log && |log| > 0 && Get(s.matchIndex, l) == |log| - 1 && Drained(s)
  }

  /** No peer has been sent anything yet. */
  ghost predicate Unsent(s: ServerState, p: NodeId) { Get(s.nextIndex, p) == 1 && Get(s.matchIndex, p) == 0 }

  lemma Crowning(members: seq<NodeId>, l: NodeId, votes: set<NodeId>)
    requires Distinct(members) && l in members
    ensures
      var r := BecomeLeader(Standing(members, l).(votes := votes), true);
      Reigning(r, members, l, Reigned([])[..2]) && forall p :: p in members && p != l ==> Unsent(r, p)
  {
    hide AdvanceCommit, Drained;
    var s := Standing(members, l).(votes := votes);
    var s1 := RaftReplication.Crowned(s);
    AdvanceDrains(s1);
    forall p | p in members && p != l
      ensures Unsent(s1, p)
    {
      RaftReplication.SetAllGet(map[], members, 1, p);
      RaftReplication.SetAllGet(map[], members, 0, p);
    }
  }

  lemma Proposing(s: ServerState, members: seq<NodeId>, l: NodeId, cmd: Str)
    requires Distinct(members) && l in members && Reigning(s, members, l, Reigned(cmd)[..2])
    requires forall p :: p in members && p != l ==> Unsent(s, p)
    ensures Contiguous(s.log)
    ensures
      var r := Submit(s, Some(cmd), true);
      Reigning(r, members, l, Reigned(cmd)) && forall p :: p in members && p != l ==> Unsent(r, p)
  {
    hide AdvanceCommit;
    var s1 := RaftReplication.Proposed(s, Some(cmd));
    assert s1.log == Reigned(cmd);
    CommandsAgree(s.log, s1.log, s.lastApplied);
    AdvanceDrains(s1);
  }

  /** Everyone but l is as before, and l leads with this log. */
  ghost predicate Ascended(c: Cluster, d: Cluster, l: NodeId, log: seq<LogEntry>) {
    && l in d.servers && Reigning(d.servers[l], c.members, l, log)
    && (forall p :: p in c.members && p != l ==> Unsent(d.servers[l], p))
    && (forall p :: p in c.servers && p != l ==> p in d.servers && d.servers[p] == c.servers[p])
  }

  lemma Eligible(c: Cluster, l: NodeId)
    requires l in c.members && Distinct(c.members) && Polled(c, l, |c.members|)
    ensures l in c.servers && CanLead(c.servers[l]) && c.servers[l] == Standing(c.members, l).(votes := c.servers[l].votes)
  {
    hide Place, Distinct;
    assert c.members[..|c.members|] == c.members;
    assert c.servers[l].votes == set p | p in c.members;
    DistinctSize(c.members);
    LeadExactly(c.servers[l]);
  }

  /** Elected by everyone, l leads. */
  lemma Electing(run: seq<Cluster>, l: NodeId) returns (more: seq<Cluster>)
    requires |run| > 0 && Run(run) && l in Now(run).members && Distinct(Now(run).members)
    requires Polled(Now(run), l, |Now(run).members|)
    ensures Continues(run, more) && Ascended(Now(run), Now(more), l, Reigned([])[..2])
  {
    hide Run, BecomeLeader, Reigning, Unsent, Polled, Standing, CanLead;
    var members := Now(run).members;
    Eligible(Now(run), l);
    var s := Now(run).servers[l];
    more := Go(run, Lead(l, true));
    Crowning(members, l, s.votes);
  }

  /** It proposes the command; nobody else notices yet. */
  lemma Commanding(run: seq<Cluster>, l: NodeId, cmd: Str) returns (more: seq<Cluster>)
    requires |run| > 0 && Run(run) && l in Now(run).members && Distinct(Now(run).members)
    requires Ascended(Now(run), Now(run), l, Reigned(cmd)[..2])
    ensures Continues(run, more) && Ascended(Now(run), Now(more), l, Reigned(cmd))
  {
    hide Run, Submit, Reigning, Unsent;
    more := Go(run, Propose(l, Some(cmd), true));
    Proposing(Now(run).servers[l], Now(run).members, l, cmd);
  }

  // ----- replication -----

  /** The first k members have been sent the request and have answered it; the leader is as it was. */
  ghost predicate Delivered(c: Cluster, d: Cluster, l: NodeId, a: AppendArgs, k: nat) {
    && d.members == c.members && d.servers.Keys == c.servers.Keys && k <= |c.members| && l in c.servers
    && d.servers[l] == c.servers[l] && Contiguous(c.servers[l].log)
    && (forall j :: 0 <= j < |c.members| ==> c.members[j] in c.servers && Contiguous(c.servers[c.members[j]].log))
    && (forall j :: 0 <= j < k && c.members[j] != l ==>
          d.servers[c.members[j]] == HandleAppend(c.servers[c.members[j]], a, true).0)
    && (forall j :: k <= j < |c.members| && c.members[j] != l ==> d.servers[c.members[j]] == c.servers[c.members[j]])
    && (forall j :: 0 <= j < k && c.members[j] != l ==> AnswerOf(c.servers[c.members[j]], a) in d.net)
  }

  function AnswerOf(s: ServerState, a: AppendArgs): Message
    requires Contiguous(s.log)
  {
    AppendAnswer(s.id, a.leader, a.term, a.prevIndex + |a.entries|, HandleAppend(s, a, true).1)
  }

  lemma {:induction false} Delivering(run: seq<Cluster>, l: NodeId, a: AppendArgs, k: nat) returns (more: seq<Cluster>)
    requires |run| > 0 && Run(run) && k <= |Now(run).members| && Distinct(Now(run).members)
    requires Delivered(Now(run), Now(run), l, a, 0)
    requires forall p :: p in Now(run).members && p != l ==> BuildAppend(Now(run).servers[l], p) == Some(a)
    ensures Continues(run, more) && Delivered(Now(run), Now(more), l, a, k)
    decreases k
  {
    hide Run, BuildAppend, HandleAppend, Distinct;
    if k == 0 {
      more := run;
    } else {
      var sent := Delivering(run, l, a, k - 1);
      if Now(run).members[k - 1] == l {
        more := sent;
      } else {
        more := DeliverOne(sent, l, a, Now(run).members[k - 1]);
        ContinuesOn(run, sent, more);
        DeliveredStep(Now(run), Now(sent), Now(more), l, a, k - 1);
      }
    }
  }

  /** The leader builds the request for one peer, which takes it and answers. */
  lemma DeliverOne(run: seq<Cluster>, l: NodeId, a: AppendArgs, p: NodeId) returns (more: seq<Cluster>)
    requires |run| > 0 && Run(run) && l in Now(run).servers && p in Now(run).servers
    requires Contiguous(Now(run).servers[l].log) && BuildAppend(Now(run).servers[l], p) == Some(a)
    ensures Continues(run, more) && Contiguous(Now(run).servers[p].log)
    ensures Now(more).servers == Now(run).servers[p := HandleAppend(Now(run).servers[p], a, true).0]
    ensures AnswerOf(Now(run).servers[p], a) in Now(more).net
  {
    hide Run, BuildAppend, HandleAppend;
    var sent := Go(run, Replicate(l, p));
    assert Now(sent).servers == Now(run).servers;
    more := Go(sent, ReceiveAppend(p, AppendRequest(a), true));
    ContinuesOn(run, sent, more);
  }

  lemma DeliveredStep(c: Cluster, d: Cluster, e: Cluster, l: NodeId, a: AppendArgs, k: nat)
    requires k < |c.members| && Distinct(c.members) && c.members[k] != l && Delivered(c, d, l, a, k)
    requires e.members == d.members && d.net <= e.net
    requires
      var p := c.members[k];
      && e.servers == d.servers[p := HandleAppend(c.servers[p], a, true).0] && AnswerOf(c.servers[p], a) in e.net
    ensures Delivered(c, e, l, a, k + 1)
  {
    hide HandleAppend;
  }

  // ----- acknowledgements -----

  /** The leader has counted the first k members for its whole log. */
  ghost predicate Counted(s: ServerState, members: seq<NodeId>, l: NodeId, log: seq<LogEntry>, k: nat) {
    && Reigning(s, members, l, log) && k <= |members|
    && (forall j :: 0 <= j < k && members[j] != l ==>
          Get(s.matchIndex, members[j]) == |log| - 1 && Get(s.nextIndex, members[j]) == |log|)
    && (forall j :: k <= j < |members| && members[j] != l ==> Unsent(s, members[j]))
  }

  function Ack(p: NodeId, l: NodeId, sent: nat): Message {
    AppendAnswer(p, l, FIRST_TERM, sent, AppendReply(FIRST_TERM, true))
  }

  lemma {:induction false} Counting(run: seq<Cluster>, l: NodeId, log: seq<LogEntry>, k: nat) returns (more: seq<Cluster>)
    requires |run| > 0 && Run(run) && k <= |Now(run).members| && Distinct(Now(run).members) && l in Now(run).servers
    requires Counted(Now(run).servers[l], Now(run).members, l, log, 0) && |log| > 1
    requires forall p :: p in Now(run).members && p != l ==> Ack(p, l, |log| - 1) in Now(run).net
    ensures Continues(run, more) && Counted(Now(more).servers[l], Now(run).members, l, log, k)
    ensures forall p :: p in Now(run).servers && p != l ==> Now(more).servers[p] == Now(run).servers[p]
    decreases k
  {
    hide Run, Distinct, Counted;
    if k == 0 {
      more := run;
    } else {
      var counted := Counting(run, l, log, k - 1);
      var p := Now(run).members[k - 1];
      if p == l {
        more := counted;
        CountedSelf(Now(more).servers[l], Now(run).members, l, log, k - 1);
      } else {
        assert p in Now(run).members && Ack(p, l, |log| - 1) in Now(run).net;
        more := Go(counted, ReceiveAppendAnswer(l, Ack(p, l, |log| - 1), true));
        CountedStep(Now(counted).servers[l], Now(run).members, l, log, k - 1);
        ContinuesOn(run, counted, more);
      }
    }
  }

  lemma CountedSelf(s: ServerState, members: seq<NodeId>, l: NodeId, log: seq<LogEntry>, k: nat)
    requires k < |members| && members[k] == l && Counted(s, members, l, log, k)
    ensures Counted(s, members, l, log, k + 1)
  {
  }

  lemma CountedStep(s: ServerState, members: seq<NodeId>, l: NodeId, log: seq<LogEntry>, k: nat)
    requires k < |members| && members[k] != l && Counted(s, members, l, log, k) && Distinct(members) && |log| > 1
    ensures Contiguous(s.log)
    ensures
      var r := HandleAppendReply(s, members[k], FIRST_TERM, |log| - 1, AppendReply(FIRST_TERM, true), true);
      Counted(r, members, l, log, k + 1)
  {
    hide AdvanceCommit, MajorityHolds;
    var p := members[k];
    var s1 := s.(matchIndex := s.matchIndex[p := |log| - 1], nextIndex := s.nextIndex[p := |log|]);
    AdvanceDrains(s1);
  }

  /** Counted for by everyone, the log is committed and applied. */
  lemma AllCounted(s: ServerState, members: seq<NodeId>, l: NodeId, log: seq<LogEntry>)
    requires Counted(s, members, l, log, |members|) && Distinct(members) && l in members && |log| > 1
    requires log[|log| - 1].term == FIRST_TERM
    ensures s.commitIndex == |log| - 1 && s.fed == Commands(log, 0, |log| - 1)
  {
    hide Distinct;
    var n := |log| - 1;
    DistinctSize(members);
    forall p | p in members
      ensures Get(s.matchIndex, p) >= n
    {
      var j :| 0 <= j < |members| && members[j] == p;
    }
    assert (set p | p in s.peers && Get(s.matchIndex, p) >= n) == set p | p in members;
    assert MajorityHolds(s, n);
  }

  // ----- the followers -----

  /** A follower of l with the command in its log, committed as far as k. */
  ghost predicate Following(f: ServerState, p: NodeId, cmd: Str, k: nat) {
    && f.id == p && f.term == FIRST_TERM && f.role == Follower && !f.stopped && f.log == Reigned(cmd)
    && Applying(f) && f.lastApplied == f.commitIndex == k
  }

  function Carrying(l: NodeId, cmd: Str, k: nat): AppendArgs {
    AppendArgs(FIRST_TERM, l, 0, 0, Reigned(cmd)[1..], k)
  }

  function Telling(l: NodeId): AppendArgs { AppendArgs(FIRST_TERM, l, 2, FIRST_TERM, [], 2) }

  lemma Follows(members: seq<NodeId>, p: NodeId, l: NodeId, cmd: Str, k: nat)
    requires k <= 2
    ensures
      var (f, r) := HandleAppend(Voter(members, p, l), Carrying(l, cmd, k), true);
      Following(f, p, cmd, k) && r == AppendReply(FIRST_TERM, true)
    ensures AnswerOf(Voter(members, p, l), Carrying(l, cmd, k)) == Ack(p, l, 2)
  {
    hide ApplyCommitted;
    var v, a := Voter(members, p, l), Carrying(l, cmd, k);
    assert a.entries == [Reigned(cmd)[1], Reigned(cmd)[2]];
    AppendTwo(Reigned(cmd)[1], Reigned(cmd)[2]);
    var f := Persist(v.(leaderId := l, log := Reigned(cmd)));
    ApplyReachesCommit(f.(commitIndex := k), true);
  }

  lemma AppendTwo(e: LogEntry, f: LogEntry)
    requires e.index == 1 && f.index == 2
    ensures AppendFrom([SENTINEL], 0, [e, f]) == [SENTINEL, e, f]
  {
    assert [e, f][..1] == [e] && [e][..0] == [];
    assert AppendFrom([SENTINEL], 0, [e]) == [SENTINEL, e];
  }

  lemma Learns(f: ServerState, p: NodeId, l: NodeId, cmd: Str, k: nat)
    requires Following(f, p, cmd, k) && k <= 2
    ensures HandleAppend(f, Telling(l), true).0.fed == [LogEntry(FIRST_TERM, 2, Some(cmd))]
  {
    hide ApplyCommitted, Commands;
    FedOnce(cmd);
    var f1 := f.(leaderId := l);
    ApplyReachesCommit(f1.(commitIndex := 2), true);
  }

  lemma FedOnce(cmd: Str)
    ensures |Reigned(cmd)| == 3 && Reigned(cmd)[2].term == FIRST_TERM
    ensures Contiguous(Reigned(cmd)) && Commands(Reigned(cmd), 0, 2) == [LogEntry(FIRST_TERM, 2, Some(cmd))]
  {
    assert Commands(Reigned(cmd), 0, 0) == [];
    assert Commands(Reigned(cmd), 0, 1) == [];
  }

  lemma FirstRequest(s: ServerState, members: seq<NodeId>, l: NodeId, cmd: Str, p: NodeId)
    requires Reigning(s, members, l, Reigned(cmd)) && Unsent(s, p)
    ensures BuildAppend(s, p) == Some(Carrying(l, cmd, s.commitIndex))
  {
  }

  lemma SecondRequest(s: ServerState, members: seq<NodeId>, l: NodeId, cmd: Str, p: NodeId)
    requires Reigning(s, members, l, Reigned(cmd)) && Get(s.nextIndex, p) == 3 && s.commitIndex == 2
    ensures BuildAppend(s, p) == Some(Telling(l))
  {
  }

  // ----- the whole run -----

  lemma Elected(members: seq<NodeId>, l: NodeId, cmd: Str) returns (run: seq<Cluster>)
    requires Distinct(members) && l in members
    ensures |run| > 0 && Run(run) && run[0] == Initial(members) && Now(run).members == members
    ensures forall p :: p in members <==> p in Now(run).servers
    ensures Reigning(Now(run).servers[l], members, l, Reigned(cmd))
    ensures forall p :: p in members && p != l ==>
      Unsent(Now(run).servers[l], p) && Now(run).servers[p] == Voter(members, p, l)
  {
    hide Run, Reigning, Unsent, Voter, Distinct;
    var standing := Campaigning(members, l);
    var polled := Polling(standing, l, |members|);
    var led := Electing(polled, l);
    assert Reigned([])[..2] == Reigned(cmd)[..2];
    run := Commanding(led, l, cmd);
    ContinuesOn(standing, polled, led);
    ContinuesOn(standing, led, run);
    assert run[0] == run[..|standing|][0];
    forall p | p in members && p != l
      ensures Now(polled).servers[p] == Voter(members, p, l)
    {
      var j :| 0 <= j < |members| && members[j] == p;
      assert Place(Now(polled), l, |members|, j);
    }
  }

  /** Every other server follows, committed as far as k. */
  ghost predicate AllFollow(c: Cluster, l: NodeId, cmd: Str, k: nat) {
    && (forall p :: p in c.members <==> p in c.servers)
    && (forall p :: p in c.members && p != l ==> Following(c.servers[p], p, cmd, k))
  }

  /** Everyone has the command in its log and has said so. */
  lemma Copied(members: seq<NodeId>, l: NodeId, cmd: Str) returns (run: seq<Cluster>, k: nat)
    requires Distinct(members) && l in members
    ensures |run| > 0 && Run(run) && run[0] == Initial(members) && Now(run).members == members && k <= 2
    ensures AllFollow(Now(run), l, cmd, k)
    ensures Reigning(Now(run).servers[l], members, l, Reigned(cmd))
    ensures forall p :: p in members && p != l ==> Unsent(Now(run).servers[l], p) && Ack(p, l, 2) in Now(run).net
  {
    hide Run, Voter, Distinct, HandleAppend, BuildAppend, Following, Carrying, Reigning, Unsent;
    var proposed := Elected(members, l, cmd);
    var s := Now(proposed).servers[l];
    k := s.commitIndex;
    CommittedWithin(s, members, l, cmd);
    var a := Carrying(l, cmd, k);
    forall p | p in members && p != l
      ensures BuildAppend(s, p) == Some(a)
    {
      FirstRequest(s, members, l, cmd, p);
    }
    StartDelivery(proposed, l, a);
    run := Delivering(proposed, l, a, |members|);
    assert run[0] == run[..|proposed|][0];
    forall p | p in members && p != l
      ensures Following(Now(run).servers[p], p, cmd, k) && Ack(p, l, 2) in Now(run).net
    {
      var j :| 0 <= j < |members| && members[j] == p;
      Follows(members, p, l, cmd, k);
    }
  }

  /** The leader has counted them all. */
  lemma Replicated(members: seq<NodeId>, l: NodeId, cmd: Str) returns (run: seq<Cluster>, k: nat)
    requires Distinct(members) && l in members
    ensures |run| > 0 && Run(run) && run[0] == Initial(members) && Now(run).members == members && k <= 2
    ensures AllFollow(Now(run), l, cmd, k) && Counted(Now(run).servers[l], members, l, Reigned(cmd), |members|)
  {
    hide Run, Distinct, Following, Reigning, Unsent;
    var copied;
    copied, k := Copied(members, l, cmd);
    run := Counting(copied, l, Reigned(cmd), |members|);
    assert run[0] == run[..|copied|][0];
  }

  lemma CommittedWithin(s: ServerState, members: seq<NodeId>, l: NodeId, cmd: Str)
    requires Reigning(s, members, l, Reigned(cmd))
    ensures Contiguous(s.log) && s.commitIndex <= 2
  {
  }

  lemma StartDelivery(run: seq<Cluster>, l: NodeId, a: AppendArgs)
    requires |run| > 0 && Run(run) && l in Now(run).servers && forall p :: p in Now(run).members <==> p in Now(run).servers
    ensures Delivered(Now(run), Now(run), l, a, 0)
  {
    hide Run, Inv, HandleAppend;
    RunInv(run, |run| - 1);
  }

  /**
   From the start of any cluster, whichever member stands, there is a run in which everyone votes for it, it leads,
   and every server applies the command submitted to it, once and alone.
   */
  lemma CommandReachesAll(members: seq<NodeId>, l: NodeId, cmd: Str) returns (run: seq<Cluster>)
    requires Distinct(members) && l in members
    ensures Run(run) && run[0] == Initial(members)
    ensures
      var c := run[|run| - 1];
      && l in c.servers && c.servers[l].role == Leader
      && forall p :: p in members ==> p in c.servers && c.servers[p].fed == [LogEntry(1, 2, Some(cmd))]
  {
    hide Run, Distinct, HandleAppend, BuildAppend, Drained, Applying, Commands, Reigned;
    var copied, k := Replicated(members, l, cmd);
    var s := Now(copied).servers[l];
    FedOnce(cmd);
    AllCounted(s, members, l, Reigned(cmd));
    forall p | p in members && p != l
      ensures BuildAppend(s, p) == Some(Telling(l))
    {
      var j :| 0 <= j < |members| && members[j] == p;
      SecondRequest(s, members, l, cmd, p);
    }
    StartDelivery(copied, l, Telling(l));
    run := Delivering(copied, l, Telling(l), |members|);
    assert run[0] == run[..|copied|][0];
    forall p | p in members && p != l
      ensures Now(run).servers[p].fed == [LogEntry(FIRST_TERM, 2, Some(cmd))]
    {
      var j :| 0 <= j < |members| && members[j] == p;
      Learns(Now(copied).servers[p], p, l, cmd, k);
    }
  }
}
