/**
 A cluster whose servers compact their logs, next to one whose servers never do: whatever a compacting
 server does in a step, a compaction or a crash, in the middle of a compaction included, its full
 counterpart matches.  RaftSnapshots.dfy adds the transfer of snapshots and whole runs.
 */
module RaftCompacting {
  import opened Bytes
  import opened RaftLog
  import opened RaftState
  import opened RaftCluster
  import opened RaftInvariant
  import opened RaftSteps
  import opened RaftRuns
  import opened RaftDelivery
  import opened RaftCompaction
  import opened RaftInvisible
  import opened RaftRecovery
  import RaftPreservation

  // ----- how a compacting server and its full counterpart relate -----

  /** The snapshot stands for a prefix of what f has applied. */
  ghost predicate StandsIn(sn: Snapshot, f: ServerState)
    requires Contiguous(f.log) && BaseIndex(f.log) == 0 && LastIndex(f.log) == |f.log| - 1
  {
    && 0 < sn.lastIndex <= f.lastApplied < |f.log|
    && sn.lastTerm == f.log[sn.lastIndex].term && sn.fed == Commands(f.log, 0, sn.lastIndex)
  }

  /** On disk and in memory. */
  ghost predicate SnapOk(c: ServerState, f: ServerState) {
    && Rooted(f.log) && Contiguous(f.log) && BaseIndex(f.log) == 0 && LastIndex(f.log) == |f.log| - 1
    && |c.log| > 0 && BaseIndex(c.log) <= SnapshotIndex(c.disk) <= f.lastApplied < |f.log|
    && (c.disk.snapshot.Some? ==> StandsIn(c.disk.snapshot.value, f))
    && (c.snapshot.Some? ==> StandsIn(c.snapshot.value, f))
  }

  /** The state files hold the same term and vote, and c's the log of f's compacted no further than c has it. */
  ghost predicate DiskOk(c: ServerState, f: ServerState) {
    match c.disk.state
    case None => f.disk.state == None && f.log == [SENTINEL]
    case Some(d) =>
      && f.disk.state == Some(Durable(d.term, d.votedFor, f.log))
      && |c.log| > 0 && |d.log| > 0 && BaseIndex(d.log) <= BaseIndex(c.log) && BaseIndex(d.log) < |f.log|
      && d.log == Compacted(f.log, BaseIndex(d.log))
  }

  ghost predicate Paired(c: ServerState, f: ServerState) { Refines(c, f) && SnapOk(c, f) && DiskOk(c, f) }

  ghost predicate Matches(t: Cluster, f: Cluster) {
    && f.members == t.members && t.servers.Keys == f.servers.Keys && t.net <= f.net
    && forall p :: p in f.servers ==> p in t.servers && Paired(t.servers[p], f.servers[p])
  }

  lemma MatchedLogs(t: Cluster, f: Cluster)
    requires Matches(t, f)
    ensures LogsWellFormed(t)
  {
    hide Compacted, Rooted;
    forall p | p in t.servers
      ensures Contiguous(t.servers[p].log)
        && (t.servers[p].disk.state.Some? ==> Contiguous(t.servers[p].disk.state.value.log))
    {
      PairedLogs(t.servers[p], f.servers[p]);
    }
  }

  lemma PairedLogs(c: ServerState, f: ServerState)
    requires Paired(c, f)
    ensures |c.log| > 0 && Contiguous(c.log) && (c.disk.state.Some? ==> Contiguous(c.disk.state.value.log))
  {
    hide Compacted;
    RefinesLogs(c, f);
    if c.disk.state.Some? {
      CompactedLog(f.log, BaseIndex(c.disk.state.value.log));
    }
  }

  // ----- handlers -----

  /** A handler on both sides keeps the pair, once the logs are known to refine and to keep what was applied. */
  lemma HandledPaired(c: ServerState, c': ServerState, f: ServerState, f': ServerState)
    requires Paired(c, f) && Refines(c', f') && |c.log| > 0 && |f.log| > 0 && Careful(c, c') && Careful(f, f')
      && VoteOnDisk(f)
    requires f.lastApplied <= f'.lastApplied && Agree(f.log, f'.log, f.lastApplied)
    ensures Paired(c', f')
  {
    hide Compacted, Commands, Rooted;
    RefinesLogs(c', f');
    if c.disk.snapshot.Some? {
      StillStands(c.disk.snapshot.value, f, f');
    }
    if c.snapshot.Some? {
      StillStands(c.snapshot.value, f, f');
    }
    var base := BaseIndex(c.log);
    assert f.log[..base + 1] == f.log[..f.lastApplied + 1][..base + 1] == f'.log[..f.lastApplied + 1][..base + 1] == f'.log[..base + 1];
    HandledDisk(c, c', f, f');
  }

  lemma StillStands(sn: Snapshot, f: ServerState, f': ServerState)
    requires Rooted(f.log) && Contiguous(f.log) && BaseIndex(f.log) == 0 && LastIndex(f.log) == |f.log| - 1
    requires Rooted(f'.log) && Contiguous(f'.log) && BaseIndex(f'.log) == 0 && LastIndex(f'.log) == |f'.log| - 1
    requires StandsIn(sn, f) && f.lastApplied <= f'.lastApplied < |f'.log| && Agree(f.log, f'.log, f.lastApplied)
    ensures StandsIn(sn, f')
  {
    hide Commands;
    var k := sn.lastIndex;
    assert f.log[..k + 1] == f.log[..f.lastApplied + 1][..k + 1] == f'.log[..f.lastApplied + 1][..k + 1] == f'.log[..k + 1];
    assert f.log[k] == f.log[..k + 1][k] == f'.log[..k + 1][k] == f'.log[k];
    CommandsAgree(f.log, f'.log, k);
  }

  /** A vote is never in memory only. */
  ghost predicate VoteOnDisk(f: ServerState) {
    f.votedFor.Some? ==> f.disk.state == Some(Durable(f.term, f.votedFor, f.log))
  }

  /** Both servers write their state files, or neither does. */
  lemma HandledDisk(c: ServerState, c': ServerState, f: ServerState, f': ServerState)
    requires DiskOk(c, f) && Refines(c, f) && Refines(c', f') && |c.log| > 0 && |f.log| > 0
    requires Careful(c, c') && Careful(f, f') && VoteOnDisk(f)
    requires BaseIndex(c.log) < |f.log| && BaseIndex(c.log) < |f'.log|
      && f.log[..BaseIndex(c.log) + 1] == f'.log[..BaseIndex(c.log) + 1]
    ensures DiskOk(c', f')
  {
    hide Compacted, Rooted;
    CompactedEqual(f.log, f'.log, BaseIndex(c.log));
  }

  lemma AfterCareful(s: ServerState, step: Step)
    requires |s.log| > 0 && Contiguous(s.log) && !step.CrashRestart? && !Offering(step) && WellAddressed(step)
    ensures Careful(s, After(s, step))
  {
    hide HandleAppend, HandleVote, StartElection, HandleVoteReply, BecomeLeader, Submit, HandleAppendReply, Contiguous;
    match step
    case Campaign(_) => CarefulElection(s, VoteArgs(0, [], 0, 0), false, [], 0, VoteReply(0, false));
    case ReceiveVote(_, m, recent) => CarefulElection(s, m.args, recent, [], 0, VoteReply(0, false));
    case ReceiveVoteAnswer(_, m) => CarefulElection(s, VoteArgs(0, [], 0, 0), false, m.from, m.reqTerm, m.voteReply);
    case Lead(_, saved) => CarefulLeader(s, saved, [], 0, 0, AppendReply(0, false), None);
    case Propose(_, cmd, saved) => CarefulLeader(s, saved, [], 0, 0, AppendReply(0, false), cmd);
    case Replicate(_, _) =>
    case ReceiveAppend(_, m, saved) => CarefulAppend(s, m.append, saved);
    case ReceiveAppendAnswer(_, m, saved) => CarefulLeader(s, saved, m.from, m.reqTerm, m.sent, m.appendReply, None);
    case Halt(_) =>
  }

  /** The same step on both sides refines again, and the compacting server says nothing the full one does not. */
  lemma AfterRefines(c: ServerState, g: ServerState, step: Step)
    requires Refines(c, g) && Contiguous(c.log) && Contiguous(g.log) && !step.CrashRestart? && !Offering(step)
      && WellAddressed(step)
    requires step.ReceiveAppend? && step.m.append.term >= g.term ==>
      g.commitIndex < |g.log| && Consistent(step.m.append, g)
    ensures Refines(After(c, step), After(g, step)) && Sent(c, step) <= Sent(g, step)
  {
    hide HandleAppend, HandleVote, StartElection, HandleVoteReply, BecomeLeader, Submit, HandleAppendReply, BuildAppend,
         CampaignArgs, Refines, Contiguous, Consistent;
    assert c.id == g.id by { SameFace(c, g); }
    match step
    case Campaign(_) => ElectionRefines(c, g, [], 0, VoteReply(0, false));
    case ReceiveVote(_, m, recent) => VoteRefines(c, g, m.args, recent);
    case ReceiveVoteAnswer(_, m) => ElectionRefines(c, g, m.from, m.reqTerm, m.voteReply);
    case Lead(_, saved) => LeadRefines(c, g, saved);
    case Propose(_, cmd, saved) => SubmitRefines(c, g, cmd, saved);
    case Replicate(_, peer) => BuildRefines(c, g, peer);
    case ReceiveAppend(_, m, saved) => AppendRefines(c, g, m.append, saved);
    case ReceiveAppendAnswer(_, m, saved) => ReplyRefines(c, g, m.from, m.reqTerm, m.sent, m.appendReply, saved);
    case Halt(_) => HaltRefines(c, g);
  }

  lemma SameFace(c: ServerState, f: ServerState)
    requires Refines(c, f)
    ensures c.id == f.id && c.role == f.role && c.votes == f.votes && c.peers == f.peers
    ensures c.lastApplied == f.lastApplied && c.fed == f.fed && c.term == f.term
  {
  }

  lemma HaltRefines(c: ServerState, f: ServerState)
    requires Refines(c, f)
    ensures Refines(c.(stopped := true), f.(stopped := true))
  {
  }

  // ----- one move of the compacting cluster -----

  /** What server p has applied is applied, and the same, one step later. */
  ghost predicate Stable(f: Cluster, f': Cluster, p: NodeId) {
    && p in f.servers && p in f'.servers && f.servers[p].lastApplied <= f'.servers[p].lastApplied
    && Agree(f.servers[p].log, f'.servers[p].log, f.servers[p].lastApplied)
  }

  lemma ActMatches(t: Cluster, f: Cluster, step: Step)
    requires Matches(t, f) && Inv(f) && Enabled(t, step) && !step.CrashRestart? && !Offering(step)
    ensures LogsWellFormed(t) && LogsWellFormed(f) && Enabled(f, step)
    ensures Stable(f, RaftCluster.Next(f, step), step.s) ==>
      Matches(RaftCluster.Next(t, step), RaftCluster.Next(f, step))
  {
    hide After, Sent, Inv, Sound, VoteOnDisk, Careful, Refines, SnapOk, DiskOk, Agree, RaftCluster.Next, Contiguous,
         Consistent;
    var c, g := t.servers[step.s], f.servers[step.s];
    FullBounds(f, step.s);
    MatchedLogs(t, f);
    FullLogs(f);
    PairedLogs(c, g);
    SameFace(c, g);
    NextShape(t, step);
    NextShape(f, step);
    if step.ReceiveAppend? && step.m.append.term >= g.term {
      InvConsistent(f, step.s, step.m.append);
    }
    AfterRefines(c, g, step);
    AfterCareful(c, step);
    AfterCareful(g, step);
    SameFace(After(c, step), After(g, step));
    FullId(f, step);
    if Stable(f, RaftCluster.Next(f, step), step.s) {
      HandledPaired(c, After(c, step), g, After(g, step));
    }
  }

  lemma FullLogs(f: Cluster)
    requires Inv(f)
    ensures LogsWellFormed(f)
  {
    RaftPreservation.InvLogs(f);
  }

  /** A server keeps its name through a step. */
  lemma FullId(f: Cluster, step: Step)
    requires Inv(f) && LogsWellFormed(f) && Enabled(f, step) && !step.CrashRestart? && WellAddressed(step)
    ensures f.servers[step.s].id == step.s && After(f.servers[step.s], step).id == step.s
  {
    hide HistoryOk, MessageOk, ServerOk, Contiguous, After;
    FullBounds(f, step.s);
    AfterForward(f.servers[step.s], step);
  }

  lemma AfterForward(s: ServerState, step: Step)
    requires |s.log| > 0 && Contiguous(s.log) && !step.CrashRestart? && WellAddressed(step)
    ensures After(s, step).id == s.id && After(s, step).lastApplied >= s.lastApplied
  {
    hide HandleOffer, HandleInstallReply, Contiguous;
    match step
    case Offer(_, _) =>
    case TakeOffer(_, m, decoded) => OfferMonotone(s, m.offer, decoded);
    case OfferAnswered(_, m, saved) => CarefulInstallReply(s, m.from, m.reqTerm, m.sent, m.term, saved);
    case Flush(_) =>
    case _ => AfterCareful(s, step);
  }

  lemma FullBounds(f: Cluster, p: NodeId)
    requires Inv(f) && p in f.servers
    ensures Sound(f, f.servers[p]) && f.servers[p].id == p && |f.servers[p].log| > 0 && VoteOnDisk(f.servers[p])
  {
    hide HistoryOk, MessageOk;
    assert Sound(f, f.servers[p]);
    ServerRooted(f, Settled(f.servers[p]));
  }

  // ----- crashes -----

  /** How far the compacting server's disk accounts for the machine. */
  ghost function Covered(c: ServerState): nat { Max(SnapshotIndex(c.disk), c.disk.marker) }

  lemma RestartsPaired(c: ServerState, f: ServerState)
    requires Paired(c, f) && Synced(Settled(f)) && f.disk.snapshot == None
    ensures c.disk.state.Some? ==> Contiguous(c.disk.state.value.log)
    ensures f.disk.state.Some? ==> Contiguous(f.disk.state.value.log)
    ensures f.disk.marker <= Covered(c) <= f.lastApplied
    ensures Paired(Restart(c), Restart(Marked(f, Covered(c))))
  {
    hide Compacted, Commands;
    var k := Covered(c);
    RefinesLogs(c, f);
    PairedLogs(c, f);
    RestartEffect(Marked(Settled(f), k));
    if c.disk.state.Some? {
      RestartsFromDisk(c, f);
    } else {
      RestartsBlank(c, f);
    }
  }

  /** A server that never wrote its state file has nothing applied and starts over. */
  lemma RestartsBlank(c: ServerState, f: ServerState)
    requires Paired(c, f) && c.disk.state == None && f.disk.snapshot == None && Synced(Settled(f))
    ensures Paired(Restart(c), Restart(Marked(f, Covered(c))))
  {
    RestartEffect(Marked(Settled(f), 0));
    assert Commands(f.log, 0, 0) == [];
  }

  lemma RestartsFromDisk(c: ServerState, f: ServerState)
    requires Paired(c, f) && f.disk.snapshot == None && c.disk.state.Some? && Contiguous(c.disk.state.value.log)
    requires Covered(c) < |f.log|
    requires f.disk.state.Some? ==> Contiguous(f.disk.state.value.log)
    requires
      var k := Covered(c);
      Restart(Marked(f, k)) == NewServer(f.id, f.peers, Marked(f, k).disk).(term := DiskTerm(f), votedFor := DiskVote(f), log := f.log,
        commitIndex := k, lastApplied := k, fed := Commands(f.log, 0, k))
    ensures Paired(Restart(c), Restart(Marked(f, Covered(c))))
  {
    hide Compacted, Commands, Restart, Rooted, Contiguous;
    var b := BaseIndex(c.disk.state.value.log);
    RefinesLogs(c, f);
    RecoveryExact(c, f.log, b);
    CompactedLog(f.log, SnapshotIndex(c.disk));
    RestartNames(c);
  }

  lemma RestartNames(c: ServerState)
    requires c.disk.state.Some? ==> Contiguous(c.disk.state.value.log)
    ensures
      var r := Restart(c);
      && r.id == c.id && r.peers == c.peers && r.nextIndex == map[] && r.matchIndex == map[] && r.leaderId == []
      && r.votes == {} && !r.stopped
      && r.snapshot == if c.disk.state.Some? then c.disk.snapshot else None
  {
    hide Commands, RebaseLog, ReplayTo;
  }

  lemma CrashMatches(t: Cluster, f: Cluster, p: NodeId)
    requires Matches(t, f) && Inv(f) && p in t.servers
    ensures LogsWellFormed(t) && LogsWellFormed(f)
    ensures
      var down, up := CrashRestart(p, t.servers[p].disk.marker), CrashRestart(p, Covered(t.servers[p]));
      Enabled(t, down) && Enabled(f, up) && Matches(RaftCluster.Next(t, down), RaftCluster.Next(f, up))
  {
    hide Inv, Sound, Synced, VoteOnDisk, Refines, SnapOk, DiskOk, Restart, Contiguous, Commands;
    var c, g := t.servers[p], f.servers[p];
    MatchedLogs(t, f);
    FullLogs(f);
    FullBounds(f, p);
    FullDisk(f, g);
    SameFace(c, g);
    RestartsPaired(c, g);
    RestartNames(c);
    RestartNames(Marked(g, Covered(c)));
    assert Marked(c, c.disk.marker) == c;
    assert c.disk.marker <= c.lastApplied by { MarkerBound(c, g); }
  }

  lemma MarkerBound(c: ServerState, f: ServerState)
    requires Refines(c, f)
    ensures c.disk.marker <= c.lastApplied
  {
  }

  lemma FullDisk(f: Cluster, g: ServerState)
    requires Sound(f, g)
    ensures Synced(Settled(g)) && g.disk.snapshot == None && g.disk.marker <= g.lastApplied
    ensures Contiguous(g.log) && BaseIndex(g.log) == 0 && g.lastApplied <= LastIndex(g.log)
      && g.fed == Commands(g.log, 0, g.lastApplied)
  {
    hide Commands;
  }

  // ----- compactions -----

  /** A finished compaction writes the state file, with whatever term is in memory. */
  ghost function CompactStep(c: ServerState, p: NodeId, threshold: nat, point: CrashPoint): Step
    requires Contiguous(c.log)
  {
    if point == Finished && WantsCompaction(c, threshold) then Flush(p) else Replicate(p, p)
  }

  lemma CompactPaired(c: ServerState, f: ServerState, p: NodeId, threshold: nat, point: CrashPoint)
    requires Paired(c, f) && Contiguous(c.log) && Contiguous(f.log) && f.fed == Commands(f.log, 0, f.lastApplied)
    ensures Paired(MaybeCompact(c, threshold, point), After(f, CompactStep(c, p, threshold, point)))
  {
    hide Compacted, Commands, Rooted, DiscardThrough;
    CompactionStutters(c, f, threshold, point);
    RefinesLogs(c, f);
    var base := BaseIndex(c.log);
    if base < c.lastApplied {
      CompactedAt(f.log, base, c.lastApplied);
    }
  }

  /** A compaction is matched by writing the state file, or by a heartbeat, which changes no server. */
  lemma CompactMatches(t: Cluster, f: Cluster, p: NodeId, threshold: nat, point: CrashPoint)
    requires Matches(t, f) && Inv(f) && p in t.servers && LogsWellFormed(t)
    ensures LogsWellFormed(f) && Enabled(f, CompactStep(t.servers[p], p, threshold, point))
    ensures
      Matches(t.(servers := t.servers[p := MaybeCompact(t.servers[p], threshold, point)]),
              RaftCluster.Next(f, CompactStep(t.servers[p], p, threshold, point)))
  {
    hide Inv, Sound, Refines, SnapOk, DiskOk, MaybeCompact, BuildAppend, Contiguous, Commands, WantsCompaction;
    FullLogs(f);
    FullBounds(f, p);
    FullDisk(f, f.servers[p]);
    CompactPaired(t.servers[p], f.servers[p], p, threshold, point);
  }

  // ----- runs of the full cluster -----

  lemma InitialMatches(c: Cluster)
    requires c == Initial(c.members)
    ensures Matches(c, c)
  {
    forall p | p in c.servers
      ensures Paired(c.servers[p], c.servers[p])
    {
      assert c.servers[p] == NewServer(p, c.members, Disk(None, 0, None));
    }
  }

  lemma ExtendRun(full: seq<Cluster>, step: Step)
    requires Run(full) && LogsWellFormed(full[|full| - 1]) && Enabled(full[|full| - 1], step)
    ensures Run(full + [RaftCluster.Next(full[|full| - 1], step)])
  {
    hide LogsWellFormed, Enabled, RaftCluster.Next, Initial;
    var n := |full| - 1;
    var longer := full + [RaftCluster.Next(full[n], step)];
    assert StepTo(full[n], longer[n + 1]);
    forall i | 0 <= i < |longer| - 1
      ensures StepTo(longer[i], longer[i + 1])
    {
      if i < n {
        assert StepTo(full[i], full[i + 1]);
      }
    }
  }

  /** What was applied stays applied: the last step of a run that was not a crash of p. */
  lemma LastStepStable(full: seq<Cluster>, step: Step)
    requires |full| > 0 && Run(full) && LogsWellFormed(full[|full| - 1]) && Enabled(full[|full| - 1], step)
      && !step.CrashRestart?
    ensures Stable(full[|full| - 1], RaftCluster.Next(full[|full| - 1], step), step.s)
  {
    hide Run, Inv, RaftCluster.Next, After, Contiguous, Agree;
    var n := |full| - 1;
    var f, p := full[n], step.s;
    var longer := full + [RaftCluster.Next(f, step)];
    ExtendRun(full, step);
    RunInv(full, n);
    FullBounds(f, p);
    NextShape(f, step);
    FullId(f, step);
    AfterForward(f.servers[p], step);
    assert longer[n] == f && longer[n + 1] == RaftCluster.Next(f, step);
    StateMachineSafety(longer, n, p, n + 1, p);
  }
}
