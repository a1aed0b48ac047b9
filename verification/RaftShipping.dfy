/**
 No follower is left behind for good: whatever a leader has discarded it holds a snapshot of, so it always has
 something to send, and a follower that has answered for the snapshot is sent entries again.
 */
module RaftShipping {
  import opened Bytes
  import opened RaftLog
  import opened RaftState
  import opened RaftCluster
  import opened RaftDelivery
  import opened RaftCompaction
  import opened RaftCompacting
  import opened RaftSnapshots
  import RaftRuns

  /** What was cut off the log is in the snapshot. */
  ghost predicate Backed(s: ServerState, p: NodeId) {
    && s.id == p && |s.log| > 0
    && (BaseIndex(s.log) > 0 ==> s.snapshot.Some? && s.snapshot.value.lastIndex == BaseIndex(s.log))
  }

  ghost predicate AllBacked(t: Cluster) { forall p :: p in t.servers ==> Backed(t.servers[p], p) }

  // ----- what each move does -----

  lemma CarefulBacked(s: ServerState, s': ServerState, p: NodeId)
    requires Backed(s, p) && Careful(s, s')
    ensures Backed(s', p) && s'.id == p
  {
  }

  lemma CompactBacked(s: ServerState, threshold: nat, point: CrashPoint, p: NodeId)
    requires Backed(s, p) && Contiguous(s.log)
    ensures Backed(MaybeCompact(s, threshold, point), p)
  {
  }

  lemma InstallBacked(s: ServerState, a: InstallArgs, p: NodeId)
    requires Backed(s, p) && Contiguous(s.log)
    ensures Backed(HandleInstall(s, a).0, p)
  {
    hide RebaseLog;
  }

  /** The snapshot file reaches at least as far as the state file's log was cut. */
  lemma RestartBacked(s: ServerState, f: ServerState, upto: nat, p: NodeId)
    requires Backed(s, p) && Paired(s, f) && (s.disk.state.Some? ==> Contiguous(s.disk.state.value.log))
    ensures Backed(Restart(Marked(s, upto)), p)
  {
    hide Commands, Refines, StandsIn, Compacted, RebaseLog;
  }

  lemma ActBacked(t: Cluster, f: Cluster, step: Step)
    requires AllBacked(t) && Matches(t, f) && LogsWellFormed(t) && Enabled(t, step) && !Offering(step)
    ensures AllBacked(Next(t, step))
  {
    hide After, Sent, Next, Restart, Backed, Paired, Careful;
    var s := t.servers[step.s];
    assert Backed(s, step.s);
    if step.CrashRestart? {
      assert Paired(s, f.servers[step.s]);
      RestartBacked(s, f.servers[step.s], step.upto, step.s);
      CrashShape(t, step);
      assert s.id == step.s by { BackedId(s, step.s); }
    } else {
      NextShape(t, step);
      AfterCareful(s, step);
      CarefulBacked(s, After(s, step), step.s);
    }
  }

  lemma BackedId(s: ServerState, p: NodeId)
    requires Backed(s, p)
    ensures s.id == p
  {
  }

  lemma CrashShape(t: Cluster, step: Step)
    requires LogsWellFormed(t) && Enabled(t, step) && step.CrashRestart?
    ensures Next(t, step).servers == t.servers[t.servers[step.s].id := Restart(Marked(t.servers[step.s], step.upto))]
  {
    hide Commands;
  }

  lemma MoveBacked(w: World, f: Cluster, m: Move)
    requires AllBacked(w.cluster) && WorldMatches(w, f) && LogsWellFormed(w.cluster) && MoveEnabled(w, m)
    ensures AllBacked(MoveNext(w, m).cluster)
  {
    hide Next, HandleInstall, HandleInstallReply, MaybeCompact, BuildInstall, Backed, Careful, Paired, ParcelOk;
    var t := w.cluster;
    match m
    case Act(step) => ActBacked(t, f, step);
    case Compact(s, threshold, point) => CompactBacked(t.servers[s], threshold, point, s);
    case Ship(s, _) =>
    case Install(s, m, decoded) => InstallBacked(t.servers[s], Read(m.install, decoded), s);
    case Shipped(s, m, saved) =>
      CarefulInstallReply(t.servers[s], m.from, m.reqTerm, m.last, m.term, saved);
      CarefulBacked(t.servers[s], HandleInstallReply(t.servers[s], m.from, m.reqTerm, m.last, m.term, saved), s);
  }

  lemma {:induction false} RunBacked(run: seq<World>, full: seq<Cluster>, i: nat)
    requires CompactingRun(run) && |full| == |run| && i < |run| && forall j :: 0 <= j < |run| ==> WorldMatches(run[j], full[j])
    ensures AllBacked(run[i].cluster)
    decreases i
  {
    hide WorldMatches, MoveEnabled, MoveNext, AllBacked;
    if i == 0 {
      InitialBacked(run[0].cluster.members);
    } else {
      RunBacked(run, full, i - 1);
      assert MovesTo(run[i - 1], run[i - 1 + 1]);
      var m :| LogsWellFormed(run[i - 1].cluster) && MoveEnabled(run[i - 1], m) && run[i] == MoveNext(run[i - 1], m);
      MoveBacked(run[i - 1], full[i - 1], m);
    }
  }

  lemma InitialBacked(members: seq<NodeId>)
    ensures AllBacked(Initial(members))
  {
  }

  // ----- nobody is stuck -----

  /**
   At any moment of any run a leader has something to send to any peer: entries, or the snapshot of all it has
   discarded.  Once the snapshot is answered for, entries again.
   */
  lemma NeverStuck(run: seq<World>, i: nat, p: NodeId, peer: NodeId, saved: bool)
    requires CompactingRun(run) && Alive(run, i, p) && Seen(run, i, p).role == Leader
    ensures Contiguous(Seen(run, i, p).log)
    ensures
      var s := Seen(run, i, p);
      BuildAppend(s, peer).Some? ||
      (&& BuildInstall(s).Some? && BuildInstall(s).value.data.Some? && BuildInstall(s).value.lastIndex == BaseIndex(s.log)
       && var s' := HandleInstallReply(s, peer, s.term, BuildInstall(s).value.lastIndex, s.term, saved);
          Contiguous(s'.log) && BuildAppend(s', peer).Some?)
  {
    hide CompactingRun, WorldMatches, HandleInstallReply, RaftRuns.Run;
    var full := Simulation(run);
    RunBacked(run, full, i);
    SeenLog(run[i], full[i], p);
    var s := Seen(run, i, p);
    assert Backed(s, p);
    if BaseIndex(s.log) > 0 {
      SnapshotReplyResumes(s, peer, saved);
    }
  }
}
