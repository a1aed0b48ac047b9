/**
 Clusters whose servers compact their logs at any moment, send each other snapshots, and crash, in the
 middle of a compaction included, though not between the two saves of an installation.  Every run of such
 a cluster is matched, step by step, by a run of the cluster of RaftCluster.dfy, so the safety properties
 proved there hold with compaction, snapshot transfer and snapshot recovery.
 */
module RaftSnapshots {
  import opened Bytes
  import opened RaftLog
  import opened RaftState
  import opened RaftCluster
  import opened RaftInvariant
  import opened RaftSteps
  import opened RaftSafety
  import opened RaftReplication
  import opened RaftOffers
  import opened RaftHearing
  import opened RaftRuns
  import opened RaftDelivery
  import opened RaftCompaction
  import opened RaftInvisible
  import opened RaftCompacting

  /** A snapshot under way, and the answer to one: a term and nothing else. */
  datatype Parcel =
    | Snap(to: NodeId, install: InstallArgs)
    | SnapAnswer(from: NodeId, to: NodeId, reqTerm: nat, last: nat, term: nat)

  datatype World = World(cluster: Cluster, parcels: set<Parcel>)

  /** A step of the protocol, a compaction that stops at the given point, or the three halves of a snapshot transfer. */
  datatype Move =
    | Act(step: Step)
    | Compact(s: NodeId, threshold: nat, point: CrashPoint)
    | Ship(s: NodeId, peer: NodeId)
    | Install(s: NodeId, m: Parcel, decoded: bool)
    | Shipped(s: NodeId, m: Parcel, saved: bool)

  ghost predicate MoveEnabled(w: World, m: Move) {
    var t := w.cluster;
    match m
    case Act(step) =>
      Enabled(t, step) && !Offering(step) && (step.CrashRestart? ==> step.upto == t.servers[step.s].disk.marker)
    case Compact(s, _, _) => s in t.servers
    case Ship(s, _) => s in t.servers && BuildInstall(t.servers[s]).Some?
    case Install(s, m, _) => s in t.servers && m in w.parcels && m.Snap? && m.to == s
    case Shipped(s, m, _) => s in t.servers && m in w.parcels && m.SnapAnswer? && m.to == s
  }

  /** The request as its receiver reads it: bytes that do not decode, or a machine that cannot restore them, carry no data. */
  function Read(a: InstallArgs, decoded: bool): InstallArgs { if decoded then a else a.(data := None) }

  ghost function Changed(w: World, s: NodeId, me: ServerState, sent: set<Parcel>): World {
    World(w.cluster.(servers := w.cluster.servers[s := me]), w.parcels + sent)
  }

  ghost function MoveNext(w: World, m: Move): World
    requires LogsWellFormed(w.cluster) && MoveEnabled(w, m)
  {
    var t := w.cluster;
    match m
    case Act(step) => w.(cluster := RaftCluster.Next(t, step))
    case Compact(s, threshold, point) => Changed(w, s, MaybeCompact(t.servers[s], threshold, point), {})
    case Ship(s, peer) => Changed(w, s, t.servers[s], {Snap(peer, BuildInstall(t.servers[s]).value)})
    case Install(s, m, decoded) =>
      var (me, r) := HandleInstall(t.servers[s], Read(m.install, decoded));
      Changed(w, s, me, {SnapAnswer(s, m.install.leader, m.install.term, m.install.lastIndex, r)})
    case Shipped(s, m, saved) => Changed(w, s, HandleInstallReply(t.servers[s], m.from, m.reqTerm, m.last, m.term, saved), {})
  }

  ghost predicate CompactingRun(run: seq<World>) {
    && |run| > 0
    && Distinct(run[0].cluster.members) && run[0] == World(Initial(run[0].cluster.members), {})
    && forall i :: 0 <= i < |run| - 1 ==> MovesTo(run[i], run[i + 1])
  }

  ghost predicate MovesTo(w: World, u: World) {
    exists m :: LogsWellFormed(w.cluster) && MoveEnabled(w, m) && u == MoveNext(w, m)
  }

  // ----- snapshots under way -----

  /** The full leader has offered the prefix the snapshot stands for. */
  ghost predicate Offered(a: InstallArgs, f: Cluster) {
    && a.term in f.h.reigns && a.lastIndex < |f.h.reigns[a.term].log|
    && StandsFor(a, f.h.reigns[a.term].log[..a.lastIndex + 1])
    && OfferRequest(AsAppend(a, f.h.reigns[a.term].log[..a.lastIndex + 1])) in f.net
  }

  /** The full follower has answered the offer. */
  function AsAnswer(m: Parcel): Message
    requires m.SnapAnswer?
  {
    OfferAnswer(m.from, m.to, m.reqTerm, m.last, m.term)
  }

  ghost predicate ParcelOk(m: Parcel, f: Cluster) {
    match m
    case Snap(_, a) => Offered(a, f)
    case SnapAnswer(_, _, _, _, _) => AsAnswer(m) in f.net
  }

  ghost predicate WorldMatches(w: World, f: Cluster) {
    Matches(w.cluster, f) && forall m :: m in w.parcels ==> ParcelOk(m, f)
  }

  lemma OfferedGrows(a: InstallArgs, f: Cluster, f': Cluster)
    requires Offered(a, f) && Grows(f, f')
    ensures Offered(a, f')
  {
    hide StandsFor;
    var k := a.lastIndex + 1;
    assert f.h.reigns[a.term].log[..k] == f'.h.reigns[a.term].log[..k];
  }

  /** Parcels stay matched, and a new one is matched if it is at all. */
  lemma ParcelsGrow(parcels: set<Parcel>, f: Cluster, f': Cluster)
    requires Grows(f, f') && forall m :: m in parcels ==> ParcelOk(m, f)
    ensures forall m :: m in parcels ==> ParcelOk(m, f')
  {
    hide Offered;
    forall m | m in parcels
      ensures ParcelOk(m, f')
    {
      assert ParcelOk(m, f);
      if m.Snap? {
        OfferedGrows(m.install, f, f');
      }
    }
  }

  // ----- Ship -----

  lemma ShipOffers(c: ServerState, f: ServerState)
    requires Paired(c, f) && BuildInstall(c).Some?
    ensures
      var a := BuildInstall(c).value;
      && f.role == Leader && a.term == f.term && a.lastIndex <= f.commitIndex && a.lastIndex < |f.log|
      && StandsFor(a, f.log[..a.lastIndex + 1]) && AsAppend(a, f.log[..a.lastIndex + 1]) == BuildOffer(f, a.lastIndex)
  {
    hide Compacted, Commands;
    var a := BuildInstall(c).value;
    var prefix := f.log[..a.lastIndex + 1];
    assert Rooted(prefix);
    RootedContiguous(prefix);
    CommandsAgree(f.log, prefix, a.lastIndex);
    assert prefix[1..] == f.log[1..a.lastIndex + 1];
  }

  lemma LeaderLog(f: Cluster, s: ServerState)
    requires Sound(f, s) && s.role == Leader
    ensures s.term in f.h.reigns && f.h.reigns[s.term].log == s.log
  {
  }

  /** What a server sends with its move is matched by what its counterpart sends. */
  lemma WorldGrows(w: World, w': World, f: Cluster, f': Cluster, sent: set<Parcel>)
    requires WorldMatches(w, f) && Grows(f, f') && Matches(w'.cluster, f') && w'.parcels == w.parcels + sent
    requires forall m :: m in sent ==> ParcelOk(m, f')
    ensures WorldMatches(w', f')
  {
    hide Matches, ParcelOk, Grows;
    ParcelsGrow(w.parcels, f, f');
  }

  /** The full cluster can answer a move with the given step. */
  ghost predicate MatchedBy(w': World, f: Cluster, step: Step) {
    && LogsWellFormed(f) && Enabled(f, step)
    && var f' := RaftCluster.Next(f, step);
       Grows(f, f') && (step.OfferAnswered? ==> Stable(f, f', step.s)) ==> WorldMatches(w', f')
  }

  lemma SnapOffered(peer: NodeId, c: ServerState, f: Cluster, f': Cluster, p: NodeId)
    requires p in f.servers && Sound(f, f.servers[p]) && Paired(c, f.servers[p]) && BuildInstall(c).Some?
    requires f'.h == f.h && f'.net == f.net + {OfferRequest(BuildOffer(f.servers[p], BuildInstall(c).value.lastIndex))}
    ensures ParcelOk(Snap(peer, BuildInstall(c).value), f')
  {
    hide Paired, Sound, BuildInstall, BuildOffer, StandsFor, AsAppend;
    ShipOffers(c, f.servers[p]);
    LeaderLog(f, f.servers[p]);
  }

  lemma ShipMatches(w: World, w': World, f: Cluster, p: NodeId, peer: NodeId)
    requires LogsWellFormed(w.cluster) && MoveEnabled(w, Ship(p, peer)) && w' == MoveNext(w, Ship(p, peer))
    requires WorldMatches(w, f) && Inv(f)
    ensures MatchedBy(w', f, Offer(p, BuildInstall(w.cluster.servers[p]).value.lastIndex))
  {
    hide Inv, Paired, ParcelOk, Grows, BuildInstall, BuildOffer, Contiguous;
    FullLogs(f);
    FullBounds(f, p);
    var c, g := w.cluster.servers[p], f.servers[p];
    ShipOffers(c, g);
    var step := Offer(p, BuildInstall(c).value.lastIndex);
    var f' := RaftCluster.Next(f, step);
    assert f'.servers == f.servers;
    SnapOffered(peer, c, f, f', p);
    if Grows(f, f') {
      WorldGrows(w, w', f, f', {Snap(peer, BuildInstall(c).value)});
    }
  }

  // ----- Install -----

  /** Taking the prefix entry by entry, in closed form. */
  lemma OfferTaken(f: ServerState, a: InstallArgs, prefix: seq<LogEntry>)
    requires Rooted(f.log) && Contiguous(f.log) && f.lastApplied <= f.commitIndex < |f.log|
      && f.fed == Commands(f.log, 0, f.lastApplied)
    requires StandsFor(a, prefix) && Matching(f.log, prefix) && Agree(f.log, prefix, Min(f.commitIndex, a.lastIndex))
    requires a.term >= f.term && a.lastIndex > f.lastApplied
    ensures
      var r := Overwrite(f.log, prefix, a.lastIndex);
      && Rooted(r) && Contiguous(r) && a.lastIndex < |r| && BaseIndex(r) == 0 && LastIndex(r) == |r| - 1
      && Agree(r, prefix, a.lastIndex)
      && HandleOffer(f, AsAppend(a, prefix), true) ==
           (Persist(ObserveTerm(f, a.term).(leaderId := a.leader, log := r, commitIndex := Max(f.commitIndex, a.lastIndex),
              lastApplied := a.lastIndex, fed := Commands(r, 0, a.lastIndex))), a.term)
  {
    hide ApplyCommitted, AppendFrom, Commands, Overwrite, Rooted, MatchesPrev, Matching;
    var idx := a.lastIndex;
    PrefixEntries(f, prefix, idx);
    InstalledLog(f, prefix, idx);
    var r := Overwrite(f.log, prefix, idx);
    RootedContiguous(r);
    TakenFed(f, ObserveTerm(f, a.term).(leaderId := a.leader, log := r, commitIndex := idx), idx);
  }

  lemma TakenFed(f: ServerState, s: ServerState, idx: nat)
    requires Rooted(f.log) && Contiguous(f.log) && f.lastApplied <= f.commitIndex < |f.log| && f.lastApplied < idx
    requires Rooted(s.log) && Contiguous(s.log) && idx < |s.log| && LastIndex(s.log) == |s.log| - 1
      && s.commitIndex == idx
    requires s.lastApplied == f.lastApplied && s.fed == f.fed && f.fed == Commands(f.log, 0, f.lastApplied)
    requires Agree(f.log, s.log, f.commitIndex)
    ensures ApplyCommitted(s, false) == s.(lastApplied := idx, fed := Commands(s.log, 0, idx))
  {
    var k := f.lastApplied;
    assert f.log[..k + 1] == f.log[..f.commitIndex + 1][..k + 1] == s.log[..f.commitIndex + 1][..k + 1] == s.log[..k + 1];
    CommandsAgree(f.log, s.log, k);
    CommandsSplit(s.log, 0, k, idx);
  }

  /** A snapshot on a compacting server and the covered prefix on its counterpart leave them paired, and answering alike. */
  lemma InstallPaired(c: ServerState, f: ServerState, a: InstallArgs, prefix: seq<LogEntry>, decoded: bool)
    requires Paired(c, f) && Contiguous(c.log) && f.fed == Commands(f.log, 0, f.lastApplied) && StandsFor(a, prefix)
    requires a.term >= f.term ==> Matching(f.log, prefix) && Agree(f.log, prefix, Min(f.commitIndex, a.lastIndex))
    ensures
      var (c', r) := HandleInstall(c, Read(a, decoded));
      var (f', reply) := HandleOffer(f, AsAppend(a, prefix), decoded);
      Paired(c', f') && c'.id == c.id && f'.id == f.id && r == reply
  {
    hide Matching, Commands, Compacted, Rooted, HandleOffer, RebaseLog, Overwrite, Contiguous;
    if a.term < f.term {
      StaleOffer(f, AsAppend(a, prefix), decoded);
    } else if decoded && a.lastIndex > f.lastApplied {
      TakenPaired(c, f, a, prefix);
    } else {
      KeptPaired(c, f, a, prefix, decoded);
    }
  }

  lemma StaleOffer(f: ServerState, a: AppendArgs, decoded: bool)
    requires Contiguous(f.log) && a.term < f.term
    ensures HandleOffer(f, a, decoded) == (f, f.term)
  {
  }

  /** Neither takes it, and both have heard its term. */
  lemma KeptPaired(c: ServerState, f: ServerState, a: InstallArgs, prefix: seq<LogEntry>, decoded: bool)
    requires Paired(c, f) && Contiguous(c.log) && Contiguous(f.log) && |prefix| == a.lastIndex + 1
    requires a.term >= f.term && (!decoded || a.lastIndex <= f.lastApplied)
    ensures HandleInstall(c, Read(a, decoded)) == (Heard(c, AsAppend(a, prefix)), a.term)
    ensures HandleOffer(f, AsAppend(a, prefix), decoded) == (Heard(f, AsAppend(a, prefix)), a.term)
    ensures Paired(Heard(c, AsAppend(a, prefix)), Heard(f, AsAppend(a, prefix)))
  {
    hide Commands, Compacted, Rooted, Contiguous, Paired, RebaseLog;
    SameApplied(c, f);
    HeardPaired(c, f, AsAppend(a, prefix));
  }

  lemma SameApplied(c: ServerState, f: ServerState)
    requires Paired(c, f)
    ensures |c.log| > 0 && BaseIndex(c.log) <= c.lastApplied == f.lastApplied && c.term == f.term && c.role == f.role
      && c.id == f.id
    ensures Rooted(f.log) && f.lastApplied <= f.commitIndex < |f.log|
  {
    hide Compacted, SnapOk, DiskOk;
  }

  lemma HeardPaired(c: ServerState, f: ServerState, a: AppendArgs)
    requires Paired(c, f)
    ensures Paired(Heard(c, a), Heard(f, a))
  {
    hide Commands, Compacted, Rooted, Contiguous;
    assert SnapOk(Heard(c, a), Heard(f, a)) && DiskOk(Heard(c, a), Heard(f, a));
  }

  lemma TakenPaired(c: ServerState, f: ServerState, a: InstallArgs, prefix: seq<LogEntry>)
    requires Paired(c, f) && Contiguous(c.log) && Contiguous(f.log) && f.fed == Commands(f.log, 0, f.lastApplied)
    requires StandsFor(a, prefix) && Matching(f.log, prefix) && Agree(f.log, prefix, Min(f.commitIndex, a.lastIndex))
    requires a.term >= f.term && a.lastIndex > f.lastApplied
    ensures
      var (c', r) := HandleInstall(c, a);
      var (f', reply) := HandleOffer(f, AsAppend(a, prefix), true);
      Paired(c', f') && c'.id == c.id && f'.id == f.id && r == reply == a.term
  {
    hide Matching, Commands, Compacted, Rooted, HandleOffer, HandleInstall, Overwrite, Contiguous, Refines, SnapOk,
         DiskOk;
    SameApplied(c, f);
    OfferTaken(f, a, prefix);
    InstalledNew(c, f, a, prefix);
    var r := Overwrite(f.log, prefix, a.lastIndex);
    CommandsAgree(r, prefix, a.lastIndex);
    assert r[a.lastIndex] == r[..a.lastIndex + 1][a.lastIndex] == prefix[..a.lastIndex + 1][a.lastIndex] == prefix[a.lastIndex];
    var f' := HandleOffer(f, AsAppend(a, prefix), true).0;
    TakenRefines(c, f, f', a, r);
    TakenFiles(c, HandleInstall(c, a).0, f', a);
  }

  /** The closed form of the offer, refined by the installed snapshot. */
  lemma TakenRefines(c: ServerState, f: ServerState, f': ServerState, a: InstallArgs, r: seq<LogEntry>)
    requires Contiguous(c.log) && Contiguous(r) && BaseIndex(r) == 0 && a.lastIndex <= LastIndex(r)
      && a.lastIndex > f.lastApplied
    requires InstalledAs(c, f, a, r) && |c.log| > 0 && Takes(c, a) && a.term >= c.term && c.term == f.term
      && c.role == f.role && c.id == f.id
    requires f' == Persist(ObserveTerm(f, a.term).(leaderId := a.leader, log := r, commitIndex := Max(f.commitIndex, a.lastIndex),
                     lastApplied := a.lastIndex, fed := Commands(r, 0, a.lastIndex)))
    ensures
      var (c', answer) := HandleInstall(c, a);
      && Refines(c', f') && answer == a.term && c'.id == c.id && f'.id == f.id
      && c'.snapshot == Some(Snapshot(a.lastIndex, a.lastTerm, a.data.value)) && c'.disk.snapshot == c'.snapshot
      && c'.disk.state == Some(Durable(c'.term, c'.votedFor, c'.log)) && BaseIndex(c'.log) == a.lastIndex
  {
    hide Commands, Refines, HandleInstall, Takes, Contiguous;
    InstallTaken(c, a);
    var c' := HandleInstall(c, a).0;
    var x := ObserveTerm(f, a.term).(role := c'.role, leaderId := a.leader, log := r,
               commitIndex := Max(f.commitIndex, a.lastIndex), lastApplied := c'.lastApplied, fed := c'.fed);
    RefinesDisk(c', x, f');
  }

  lemma InstallTaken(c: ServerState, a: InstallArgs)
    requires Contiguous(c.log) && |c.log| > 0 && Takes(c, a) && a.term >= c.term
    ensures
      var (c', answer) := HandleInstall(c, a);
      && answer == a.term && c'.id == c.id && c'.role == ObserveTerm(c, a.term).role && BaseIndex(c'.log) == a.lastIndex
      && c'.snapshot == Some(Snapshot(a.lastIndex, a.lastTerm, a.data.value)) && c'.disk.snapshot == c'.snapshot
      && c'.disk.state == Some(Durable(c'.term, c'.votedFor, c'.log)) && |c'.log| > 0 && c'.lastApplied == a.lastIndex
  {
    hide RebaseLog;
  }

  /** What the full server keeps in its state file is no concern of the refinement. */
  lemma RefinesDisk(c: ServerState, f: ServerState, f': ServerState)
    requires Refines(c, f) && f' == f.(disk := f'.disk) && f'.disk.marker == f.disk.marker
    ensures Refines(c, f')
  {
    hide Compacted, Rooted;
  }

  lemma TakenFiles(c: ServerState, c': ServerState, f': ServerState, a: InstallArgs)
    requires Refines(c', f') && a.data.Some? && c'.snapshot == Some(Snapshot(a.lastIndex, a.lastTerm, a.data.value))
      && c'.disk.snapshot == c'.snapshot
    requires c'.disk.state == Some(Durable(c'.term, c'.votedFor, c'.log)) && BaseIndex(c'.log) == a.lastIndex > 0
    requires f'.disk.state == Some(Durable(f'.term, f'.votedFor, f'.log)) && f'.lastApplied == a.lastIndex
    requires Contiguous(f'.log) && BaseIndex(f'.log) == 0 && LastIndex(f'.log) == |f'.log| - 1
    requires a.lastTerm == f'.log[a.lastIndex].term && a.data.value == Commands(f'.log, 0, a.lastIndex)
    ensures SnapOk(c', f') && DiskOk(c', f')
  {
    hide Commands, Compacted, Contiguous;
  }

  /** In any state of the protocol, the prefix a snapshot stands for fits its receiver's log. */
  lemma Installable(f: Cluster, s: ServerState, a: InstallArgs)
    requires HistoryOk(f.members, f.h, f.net) && Sound(f, s) && Offered(a, f) && a.term >= s.term
    ensures
      var prefix := f.h.reigns[a.term].log[..a.lastIndex + 1];
      Matching(s.log, prefix) && Agree(s.log, prefix, Min(s.commitIndex, a.lastIndex))
  {
    hide HistoryOk, AnchoredAt, Commands, CommittedTo, Retains, Matching;
    var leader := f.h.reigns[a.term].log;
    ReignAnchored(f, a.term);
    AnchoredLogsMatch(f.h.reigns, s.log, leader);
    MatchingPrefix(s.log, leader, a.lastIndex);
    CommittedInReign(f, Settled(s), a.term);
    AgreeShorter(s.log, leader, s.commitIndex, Min(s.commitIndex, a.lastIndex), a.lastIndex);
  }

  lemma InvHistory(f: Cluster)
    requires Inv(f)
    ensures HistoryOk(f.members, f.h, f.net)
  {
  }

  ghost function TakeStep(f: Cluster, p: NodeId, a: InstallArgs, decoded: bool): Step
    requires Offered(a, f)
  {
    TakeOffer(p, OfferRequest(AsAppend(a, f.h.reigns[a.term].log[..a.lastIndex + 1])), decoded)
  }

  lemma InstallFacts(f: Cluster, p: NodeId, c: ServerState, a: InstallArgs, decoded: bool)
    requires Inv(f) && p in f.servers && Paired(c, f.servers[p]) && Contiguous(c.log) && Offered(a, f)
    ensures Contiguous(f.servers[p].log) && f.servers[p].id == p
    ensures
      var (c', r) := HandleInstall(c, Read(a, decoded));
      var (g', reply) := HandleOffer(f.servers[p], AsAppend(a, f.h.reigns[a.term].log[..a.lastIndex + 1]), decoded);
      Paired(c', g') && g'.id == p && r == reply
  {
    hide Inv, Sound, HistoryOk, Refines, SnapOk, DiskOk, HandleInstall, HandleOffer, Contiguous, StandsFor, Commands,
         Matching, Agree;
    FullBounds(f, p);
    InvHistory(f);
    var g := f.servers[p];
    FullDisk(f, g);
    SameFace(c, g);
    if a.term >= g.term {
      Installable(f, g, a);
    }
    InstallPaired(c, g, a, f.h.reigns[a.term].log[..a.lastIndex + 1], decoded);
  }

  lemma InstallMatches(w: World, w': World, f: Cluster, p: NodeId, m: Parcel, decoded: bool)
    requires LogsWellFormed(w.cluster) && m.Snap? && MoveEnabled(w, Install(p, m, decoded))
      && w' == MoveNext(w, Install(p, m, decoded))
    requires WorldMatches(w, f) && Inv(f)
    ensures Offered(m.install, f) && MatchedBy(w', f, TakeStep(f, p, m.install, decoded))
  {
    hide Inv, Paired, Grows, HandleInstall, HandleOffer, Contiguous;
    FullLogs(f);
    assert ParcelOk(m, f);
    var c, a := w.cluster.servers[p], m.install;
    InstallFacts(f, p, c, a, decoded);
    var f' := RaftCluster.Next(f, TakeStep(f, p, a, decoded));
    var answer := SnapAnswer(p, a.leader, a.term, a.lastIndex, HandleInstall(c, Read(a, decoded)).1);
    assert ParcelOk(answer, f') by { assert AsAnswer(answer) in f'.net; }
    if Grows(f, f') {
      WorldGrows(w, w', f, f', {answer});
    }
  }

  // ----- Shipped -----

  lemma AnswerRefines(c: ServerState, f: ServerState, peer: NodeId, reqTerm: nat, last: nat, term: nat, saved: bool)
    requires Refines(c, f) && Contiguous(c.log) && Contiguous(f.log)
    ensures Refines(HandleInstallReply(c, peer, reqTerm, last, term, saved), HandleInstallReply(f, peer, reqTerm, last, term, saved))
  {
    hide Compacted, Rooted, AdvanceCommit;
    AdvanceRefines(Raised(c, peer, last), Raised(f, peer, last), saved);
  }

  function HearStep(p: NodeId, m: Parcel, saved: bool): Step
    requires m.SnapAnswer?
  {
    OfferAnswered(p, AsAnswer(m), saved)
  }

  lemma ShippedPaired(c: ServerState, f: ServerState, m: Parcel, saved: bool)
    requires Paired(c, f) && Contiguous(c.log) && Contiguous(f.log) && m.SnapAnswer? && |f.log| > 0 && VoteOnDisk(f)
    requires
      var f' := HandleInstallReply(f, m.from, m.reqTerm, m.last, m.term, saved);
      f.lastApplied <= f'.lastApplied && Agree(f.log, f'.log, f.lastApplied)
    ensures Paired(HandleInstallReply(c, m.from, m.reqTerm, m.last, m.term, saved),
                   HandleInstallReply(f, m.from, m.reqTerm, m.last, m.term, saved))
  {
    hide HandleInstallReply, Refines, SnapOk, DiskOk, Contiguous, Agree, Careful, VoteOnDisk;
    PairedLogs(c, f);
    CarefulInstallReply(f, m.from, m.reqTerm, m.last, m.term, saved);
    AnswerRefines(c, f, m.from, m.reqTerm, m.last, m.term, saved);
    CarefulInstallReply(c, m.from, m.reqTerm, m.last, m.term, saved);
    HandledPaired(c, HandleInstallReply(c, m.from, m.reqTerm, m.last, m.term, saved), f,
                  HandleInstallReply(f, m.from, m.reqTerm, m.last, m.term, saved));
  }

  lemma ShippedMatches(w: World, w': World, f: Cluster, p: NodeId, m: Parcel, saved: bool)
    requires LogsWellFormed(w.cluster) && m.SnapAnswer? && MoveEnabled(w, Shipped(p, m, saved))
      && w' == MoveNext(w, Shipped(p, m, saved))
    requires WorldMatches(w, f) && Inv(f)
    ensures MatchedBy(w', f, HearStep(p, m, saved))
  {
    hide Inv, Sound, VoteOnDisk, Paired, Grows, HandleInstallReply, Contiguous, Agree;
    FullLogs(f);
    FullBounds(f, p);
    assert ParcelOk(m, f);
    var step := HearStep(p, m, saved);
    var f' := RaftCluster.Next(f, step);
    FullId(f, step);
    if Grows(f, f') && Stable(f, f', p) {
      ShippedPaired(w.cluster.servers[p], f.servers[p], m, saved);
      WorldGrows(w, w', f, f', {});
    }
  }

  // ----- whole runs -----

  /** A move that sends no snapshot keeps those under way matched. */
  lemma PlainMove(w: World, m: Move, f: Cluster, f': Cluster)
    requires LogsWellFormed(w.cluster) && MoveEnabled(w, m) && (m.Act? || m.Compact?)
    requires WorldMatches(w, f) && Grows(f, f') && Matches(MoveNext(w, m).cluster, f')
    ensures WorldMatches(MoveNext(w, m), f')
  {
    hide Matches, ParcelOk, Grows, RaftCluster.Next, MaybeCompact, Contiguous;
    WorldGrows(w, MoveNext(w, m), f, f', {});
  }

  /** One more move of the compacting cluster, one more step of the full one. */
  lemma MoveMatches(w: World, full: seq<Cluster>, m: Move) returns (step: Step)
    requires |full| > 0 && Run(full) && WorldMatches(w, full[|full| - 1]) && LogsWellFormed(w.cluster)
      && MoveEnabled(w, m)
    ensures LogsWellFormed(full[|full| - 1]) && Enabled(full[|full| - 1], step)
    ensures WorldMatches(MoveNext(w, m), RaftCluster.Next(full[|full| - 1], step))
  {
    hide Run, Inv, RaftCluster.Next, Matches, ParcelOk, MaybeCompact, Stable, Contiguous, Grows;
    var f := full[|full| - 1];
    RunInv(full, |full| - 1);
    match m
    case Act(a) =>
      if a.CrashRestart? {
        CrashMatches(w.cluster, f, a.s);
        step := CrashRestart(a.s, Covered(w.cluster.servers[a.s]));
      } else {
        ActMatches(w.cluster, f, a);
        LastStepStable(full, a);
        step := a;
      }
      StepPreserves(f, step);
      PlainMove(w, m, f, RaftCluster.Next(f, step));
    case Compact(p, threshold, point) =>
      CompactMatches(w.cluster, f, p, threshold, point);
      step := CompactStep(w.cluster.servers[p], p, threshold, point);
      StepPreserves(f, step);
      PlainMove(w, m, f, RaftCluster.Next(f, step));
    case Ship(p, peer) =>
      ShipMatches(w, MoveNext(w, m), f, p, peer);
      step := Offer(p, BuildInstall(w.cluster.servers[p]).value.lastIndex);
      StepPreserves(f, step);
    case Install(p, q, decoded) =>
      InstallMatches(w, MoveNext(w, m), f, p, q, decoded);
      step := TakeStep(f, p, q.install, decoded);
      StepPreserves(f, step);
    case Shipped(p, q, saved) =>
      ShippedMatches(w, MoveNext(w, m), f, p, q, saved);
      step := HearStep(p, q, saved);
      StepPreserves(f, step);
      LastStepStable(full, step);
  }

  /** Every run with compactions, snapshots and crashes has a run without either that matches it moment by moment. */
  lemma {:induction false} Simulation(run: seq<World>) returns (full: seq<Cluster>)
    requires CompactingRun(run)
    ensures |full| == |run| && Run(full) && forall i :: 0 <= i < |run| ==> WorldMatches(run[i], full[i])
    decreases |run|
  {
    hide WorldMatches, LogsWellFormed, RaftCluster.Next, Initial, MoveEnabled, MoveNext;
    var n := |run| - 1;
    if n == 0 {
      full := [run[0].cluster];
      FirstMatches(run[0]);
    } else {
      var shorter := run[..n];
      forall i | 0 <= i < |shorter| - 1
        ensures MovesTo(shorter[i], shorter[i + 1])
      {
        assert MovesTo(run[i], run[i + 1]);
      }
      var before := Simulation(shorter);
      assert MovesTo(run[n - 1], run[n - 1 + 1]);
      var m :| LogsWellFormed(run[n - 1].cluster) && MoveEnabled(run[n - 1], m) && run[n] == MoveNext(run[n - 1], m);
      assert WorldMatches(shorter[n - 1], before[n - 1]);
      var step := MoveMatches(run[n - 1], before, m);
      ExtendRun(before, step);
      full := before + [RaftCluster.Next(before[n - 1], step)];
    }
  }

  lemma FirstMatches(w: World)
    requires w == World(Initial(w.cluster.members), {})
    ensures WorldMatches(w, w.cluster)
  {
    hide Matches;
    InitialMatches(w.cluster);
  }

  ghost predicate Alive(run: seq<World>, i: nat, p: NodeId) { i < |run| && p in run[i].cluster.servers }

  /** Server p as it was at moment i of a compacting run. */
  ghost function Seen(run: seq<World>, i: nat, p: NodeId): ServerState
    requires Alive(run, i, p)
  {
    run[i].cluster.servers[p]
  }

  lemma SeenSame(w: World, f: Cluster, p: NodeId)
    requires WorldMatches(w, f) && p in w.cluster.servers
    ensures p in f.servers
    ensures
      var c, g := w.cluster.servers[p], f.servers[p];
      c.role == g.role && c.term == g.term && c.lastApplied == g.lastApplied && c.fed == g.fed
  {
    hide ParcelOk, Refines, SnapOk, DiskOk;
    SameFace(w.cluster.servers[p], f.servers[p]);
  }

  /** Election Safety with compaction, snapshot transfer and recovery from snapshots. */
  lemma CompactingElectionSafety(run: seq<World>, i: nat, p: NodeId, j: nat, q: NodeId)
    requires CompactingRun(run) && Alive(run, i, p) && Alive(run, j, q) && i <= j
    requires Seen(run, i, p).role == Leader && Seen(run, j, q).role == Leader
      && Seen(run, i, p).term == Seen(run, j, q).term
    ensures p == q
  {
    hide CompactingRun, WorldMatches, Run;
    var full := Simulation(run);
    SeenSame(run[i], full[i], p);
    SeenSame(run[j], full[j], q);
    ElectionSafety(full, i, p, j, q);
  }

  /**
   State Machine Safety with compaction, snapshot transfer and recovery from snapshots: whatever was
   compacted or shipped, and whenever any server died, in the middle of a compaction included, no two
   machines were ever fed differently.
   */
  lemma CompactingStateMachineSafety(run: seq<World>, i: nat, p: NodeId, j: nat, q: NodeId)
    requires CompactingRun(run) && Alive(run, i, p) && Alive(run, j, q)
    requires Seen(run, i, p).lastApplied <= Seen(run, j, q).lastApplied
    ensures Seen(run, i, p).fed <= Seen(run, j, q).fed
  {
    hide CompactingRun, WorldMatches, Run;
    var full := Simulation(run);
    SeenSame(run[i], full[i], p);
    SeenSame(run[j], full[j], q);
    StateMachineSafety(full, i, p, j, q);
  }

  /** A compacting server's log is its counterpart's, compacted. */
  lemma SeenLog(w: World, f: Cluster, p: NodeId)
    requires WorldMatches(w, f) && p in w.cluster.servers
    ensures p in f.servers
    ensures
      var c, g := w.cluster.servers[p], f.servers[p];
      && |c.log| > 0 && Contiguous(c.log) && Rooted(g.log) && BaseIndex(c.log) <= c.commitIndex < |g.log|
      && c.log == Compacted(g.log, BaseIndex(c.log)) && c.commitIndex == g.commitIndex && c.term == g.term
      && c.role == g.role
  {
    hide ParcelOk, SnapOk, DiskOk, Compacted;
    RefinesLogs(w.cluster.servers[p], f.servers[p]);
  }

  /** Two compacted logs hold the same entry at k. */
  ghost predicate SameAt(a: seq<LogEntry>, b: seq<LogEntry>, k: nat)
    requires Contiguous(a) && Contiguous(b)
  {
    EntryAt(a, k).Some? && EntryAt(a, k) == EntryAt(b, k)
  }

  lemma CompactedSame(x: seq<LogEntry>, y: seq<LogEntry>, a: nat, b: nat, k: nat, n: nat)
    requires Rooted(x) && Rooted(y) && a < |x| && b < |y| && Agree(x, y, k) && a < n <= k && b < n
    ensures Contiguous(Compacted(x, a)) && Contiguous(Compacted(y, b)) && SameAt(Compacted(x, a), Compacted(y, b), n)
  {
    hide Compacted;
    CompactedAt(x, a, n);
    CompactedAt(y, b, n);
    assert x[n] == x[..k + 1][n] == y[..k + 1][n] == y[n];
  }

  /** Log Matching with compaction: same index and term means the same entries, as far down as both logs still reach. */
  lemma CompactingLogMatching(run: seq<World>, i: nat, p: NodeId, j: nat, q: NodeId, k: nat)
    requires CompactingRun(run) && Alive(run, i, p) && Alive(run, j, q)
    ensures Contiguous(Seen(run, i, p).log) && Contiguous(Seen(run, j, q).log)
    ensures TermAt(Seen(run, i, p).log, k).Some? && TermAt(Seen(run, i, p).log, k) == TermAt(Seen(run, j, q).log, k) ==>
      forall n: nat :: BaseIndex(Seen(run, i, p).log) < n <= k && BaseIndex(Seen(run, j, q).log) < n ==>
        SameAt(Seen(run, i, p).log, Seen(run, j, q).log, n)
  {
    hide CompactingRun, WorldMatches, Run, Compacted, Rooted, SameAt, Contiguous;
    var full := Simulation(run);
    SeenLog(run[i], full[i], p);
    SeenLog(run[j], full[j], q);
    var a, b := Seen(run, i, p).log, Seen(run, j, q).log;
    var x, y := At(full, i, p).log, At(full, j, q).log;
    LogMatching(full, i, p, j, q);
    assert MatchAt(x, y, k);
    if TermAt(a, k).Some? && TermAt(a, k) == TermAt(b, k) {
      TermInFull(x, BaseIndex(a), k);
      TermInFull(y, BaseIndex(b), k);
      forall n: nat | BaseIndex(a) < n <= k && BaseIndex(b) < n
        ensures SameAt(a, b, n)
      {
        CompactedSame(x, y, BaseIndex(a), BaseIndex(b), k, n);
      }
    }
  }

  lemma TermInFull(full: seq<LogEntry>, base: nat, k: nat)
    requires Rooted(full) && base < |full| && Contiguous(Compacted(full, base))
      && TermAt(Compacted(full, base), k).Some?
    ensures k < |full| && TermAt(Compacted(full, base), k) == Some(full[k].term)
  {
    CompactedLog(full, base);
    CompactedAt(full, base, Max(base, k));
  }

  /** Leader Completeness with compaction: a leader of a later term holds whatever anyone has committed and it has not discarded. */
  lemma CompactingLeadersKeepCommits(run: seq<World>, i: nat, p: NodeId, j: nat, q: NodeId)
    requires CompactingRun(run) && Alive(run, i, p) && Alive(run, j, q)
    requires Seen(run, j, q).role == Leader && Seen(run, j, q).term > Seen(run, i, p).term
    ensures Contiguous(Seen(run, i, p).log) && Contiguous(Seen(run, j, q).log)
    ensures forall n: nat :: BaseIndex(Seen(run, i, p).log) < n <= Seen(run, i, p).commitIndex && BaseIndex(Seen(run, j, q).log) < n ==>
      SameAt(Seen(run, i, p).log, Seen(run, j, q).log, n)
  {
    hide CompactingRun, WorldMatches, Run, Compacted, Rooted, SameAt, Contiguous;
    var full := Simulation(run);
    SeenLog(run[i], full[i], p);
    SeenLog(run[j], full[j], q);
    LeadersKeepCommits(full, i, p, j, q);
    var a, b := Seen(run, i, p), Seen(run, j, q);
    forall n: nat | BaseIndex(a.log) < n <= a.commitIndex && BaseIndex(b.log) < n
      ensures SameAt(a.log, b.log, n)
    {
      CompactedSame(At(full, i, p).log, At(full, j, q).log, BaseIndex(a.log), BaseIndex(b.log), a.commitIndex, n);
    }
  }

  /**
   Catching up, with compaction: a server that has applied an entry submitted to a leader at moment h has been fed
   all that any server had been fed by then.
   */
  lemma CompactingCatchUp(run: seq<World>, h: nat, p: NodeId, i: nat, s: NodeId, g: nat, q: NodeId)
    requires CompactingRun(run) && Alive(run, h, p) && Alive(run, i, s) && Alive(run, g, q) && g <= h
    requires Seen(run, h, p).role == Leader && Landed(Seen(run, h, p), Seen(run, i, s))
    ensures Seen(run, g, q).fed <= Seen(run, i, s).fed
  {
    hide CompactingRun, WorldMatches, Run;
    var full := Simulation(run);
    SeenSame(run[h], full[h], p);
    SeenSame(run[i], full[i], s);
    SeenSame(run[g], full[g], q);
    SeenLog(run[h], full[h], p);
    CompactedLog(At(full, h, p).log, BaseIndex(Seen(run, h, p).log));
    CatchingUp(full, h, p, i, s, g, q);
  }
}
