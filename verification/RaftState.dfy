/**
 One Raft server as a value, and its handlers as functions on that value
 (raft/server.go, raft/loop.go, raft/snapshot.go, raft/persist.go).

 Each function is one critical section of the source.  The class Server in RaftServer.dfy runs
 the same sections in place and is proved to compute exactly these functions; RaftCluster.dfy
 takes them as the atomic steps of the protocol.

 The state machine is the free one: it remembers the entries it was fed, in order, and its snapshots
 remember them too.  What a machine whose snapshots forget something makes of that sequence is the
 subject of Replicas.dfy.
 */
module RaftState {
  import opened Bytes
  import opened RaftLog

  type NodeId = Str

  datatype Role = Follower | Candidate | Leader

  /** A serialized state machine and the log position it stands for. */
  datatype Snapshot = Snapshot(lastIndex: nat, lastTerm: nat, fed: seq<LogEntry>)

  /** The record of persistLocked: Figure 2's persistent state. */
  datatype Durable = Durable(term: nat, votedFor: Option<NodeId>, log: seq<LogEntry>)

  /** Everything that survives a crash: three files, each replaced atomically. */
  datatype Disk = Disk(state: Option<Durable>, marker: nat, snapshot: Option<Snapshot>)

  function SnapshotIndex(disk: Disk): nat {
    match disk.snapshot case None => 0 case Some(sn) => sn.lastIndex
  }

  datatype ServerState = ServerState(
    id: NodeId,
    peers: seq<NodeId>,
    term: nat,
    votedFor: Option<NodeId>,
    log: seq<LogEntry>,
    commitIndex: nat,
    lastApplied: nat,
    nextIndex: map<NodeId, nat>,
    matchIndex: map<NodeId, nat>,
    role: Role,
    leaderId: NodeId,
    votes: set<NodeId>,
    stopped: bool,
    fed: seq<LogEntry>,
    snapshot: Option<Snapshot>,
    disk: Disk)

  datatype VoteArgs = VoteArgs(term: nat, candidate: NodeId, lastIndex: nat, lastTerm: nat)
  datatype VoteReply = VoteReply(term: nat, granted: bool)
  datatype AppendArgs = AppendArgs(term: nat, leader: NodeId, prevIndex: nat, prevTerm: nat,
                                   entries: seq<LogEntry>, leaderCommit: nat)
  datatype AppendReply = AppendReply(term: nat, success: bool)

  /** data is None for bytes that RestoreSnapshot refuses. */
  datatype InstallArgs = InstallArgs(term: nat, leader: NodeId, lastIndex: nat, lastTerm: nat,
                                     data: Option<seq<LogEntry>>)

  function NewServer(id: NodeId, peers: seq<NodeId>, disk: Disk): ServerState {
    ServerState(id, peers, 0, None, [SENTINEL], 0, 0, map[], map[], Follower, [], {}, false, [], None, disk)
  }

  function Get(m: map<NodeId, nat>, p: NodeId): nat { if p in m then m[p] else 0 }

  /** m with every peer's entry set to v, in the order the source's loop sets them. */
  function SetAll(m: map<NodeId, nat>, peers: seq<NodeId>, v: nat): map<NodeId, nat> {
    if peers == [] then m
    else
      var k := |peers| - 1;
      SetAll(m, peers[..k], v)[peers[k] := v]
  }

  // ----- persistence and terms -----

  function Persist(s: ServerState): ServerState {
    s.(disk := s.disk.(state := Some(Durable(s.term, s.votedFor, s.log))))
  }

  function BecomeFollower(s: ServerState, term: nat): ServerState {
    if term > s.term then s.(role := Follower, term := term, votedFor := None)
    else s.(role := Follower)
  }

  function ObserveTerm(s: ServerState, t: nat): ServerState {
    if t > s.term then BecomeFollower(s, t) else s
  }

  // ----- applying committed entries -----

  function Fed(e: LogEntry): seq<LogEntry> { if e.command == None then [] else [e] }

  /** The entries with index in (lo, hi] that carry a command, in log order. */
  function Commands(log: seq<LogEntry>, lo: nat, hi: nat): seq<LogEntry>
    requires Contiguous(log)
    requires BaseIndex(log) <= lo + 1 && lo <= hi <= LastIndex(log)
    decreases hi
  {
    if hi == lo then [] else Commands(log, lo, hi - 1) + Fed(log[hi - BaseIndex(log)])
  }

  /** Commands one entry further; an empty range feeds nothing. */
  lemma CommandsStep(log: seq<LogEntry>, lo: nat, hi: nat)
    requires Contiguous(log) && BaseIndex(log) <= lo + 1 && lo <= hi < LastIndex(log)
    ensures hi + 1 - BaseIndex(log) < |log|
    ensures EntryAt(log, hi + 1) == Some(log[hi + 1 - BaseIndex(log)])
    ensures Commands(log, lo, hi + 1) == Commands(log, lo, hi) + Fed(log[hi + 1 - BaseIndex(log)])
    ensures Commands(log, lo, lo) == []
  {
  }

  function SaveMarker(s: ServerState, saved: bool): ServerState {
    if saved && s.lastApplied > 0 then s.(disk := s.disk.(marker := s.lastApplied)) else s
  }

  /** saved says whether the applied marker reached the disk; a failure is not fatal. */
  function ApplyCommitted(s: ServerState, saved: bool): ServerState
    requires Contiguous(s.log)
  {
    if s.commitIndex <= s.lastApplied then SaveMarker(s, saved)
    else if s.lastApplied + 1 < BaseIndex(s.log) || s.lastApplied + 1 > LastIndex(s.log) then s
    else
      var hi := Min(s.commitIndex, LastIndex(s.log));
      var s' := s.(lastApplied := hi, fed := s.fed + Commands(s.log, s.lastApplied, hi));
      if s.commitIndex > LastIndex(s.log) then s' else SaveMarker(s', saved)
  }

  // ----- receivers -----

  function HandleAppend(s: ServerState, a: AppendArgs, saved: bool): (ServerState, AppendReply)
    requires Contiguous(s.log)
  {
    if s.stopped || a.term < s.term then (s, AppendReply(s.term, false))
    else
      var termChanged := a.term > s.term;
      var s1 := ObserveTerm(s, a.term);
      var s2 := s1.(role := if s1.role == Candidate then Follower else s1.role, leaderId := a.leader);
      if !MatchesPrev(s2.log, a.prevIndex, a.prevTerm) then
        (if termChanged then Persist(s2) else s2, AppendReply(s2.term, false))
      else
        var log' := AppendFrom(s2.log, a.prevIndex, a.entries);
        var s3 := s2.(log := log');
        var s4 := if log' != s.log || termChanged then Persist(s3) else s3;
        (if a.leaderCommit > s4.commitIndex
         then ApplyCommitted(s4.(commitIndex := Min(a.leaderCommit, a.prevIndex + |a.entries|)), saved)
         else s4,
         AppendReply(s4.term, true))
  }

  /** recent says whether a leader was heard from within the minimum election timeout. */
  function HandleVote(s: ServerState, a: VoteArgs, recent: bool): (ServerState, VoteReply)
    requires |s.log| > 0
  {
    if s.stopped || a.term < s.term then (s, VoteReply(s.term, false))
    else if s.leaderId != [] && s.role == Follower && recent then (s, VoteReply(s.term, false))
    else
      var s1 := ObserveTerm(s, a.term);
      var alreadyVoted := s1.votedFor != None && s1.votedFor != Some(a.candidate);
      if alreadyVoted || !UpToDate(a.lastIndex, a.lastTerm, s1.log) then
        (if a.term > s.term then Persist(s1) else s1, VoteReply(s1.term, false))
      else
        (Persist(s1.(votedFor := Some(a.candidate))), VoteReply(s1.term, true))
  }

  // ----- elections -----

  function StartElection(s: ServerState): ServerState {
    Persist(s.(role := Candidate, term := s.term + 1, votedFor := Some(s.id), votes := {s.id}))
  }

  function CampaignArgs(s: ServerState): VoteArgs
    requires |s.log| > 0
  {
    VoteArgs(s.term, s.id, LastIndex(s.log), LastTerm(s.log))
  }

  /** The reply to a RequestVote sent for the election of reqTerm.  votes holds the peers counted so far. */
  function HandleVoteReply(s: ServerState, from: NodeId, reqTerm: nat, r: VoteReply): ServerState {
    if r.term > s.term then Persist(BecomeFollower(s, r.term))
    else if s.term != reqTerm || s.role != Candidate || !r.granted then s
    else s.(votes := s.votes + {from})
  }

  /** Leadership is taken only by a candidate still in the term it campaigned for, with a majority. */
  predicate CanLead(s: ServerState) {
    s.role == Candidate && |s.votes| >= Majority(|s.peers|)
  }

  function BecomeLeader(s: ServerState, saved: bool): ServerState
    requires Contiguous(s.log)
  {
    var next := LastIndex(s.log) + 1;
    var s1 := s.(
      role := Leader,
      leaderId := s.id,
      nextIndex := SetAll(s.nextIndex, s.peers, next)[s.id := next + 1],
      matchIndex := SetAll(s.matchIndex, s.peers, 0)[s.id := next],
      log := s.log + [LogEntry(s.term, next, None)]);
    AdvanceCommit(Persist(s1), saved)
  }

  // ----- the leader -----

  function CountAtLeast(peers: seq<NodeId>, matchIndex: map<NodeId, nat>, n: nat): nat {
    if peers == [] then 0
    else
      var k := |peers| - 1;
      CountAtLeast(peers[..k], matchIndex, n) + if Get(matchIndex, peers[k]) >= n then 1 else 0
  }

  predicate Committable(s: ServerState, n: nat)
    requires Contiguous(s.log)
  {
    && TermAt(s.log, n) == Some(s.term)
    && CountAtLeast(s.peers, s.matchIndex, n) >= Majority(|s.peers|)
  }

  /** The downward scan of advanceCommitIndexLocked from n: the first committable index above commitIndex. */
  function ScanDown(s: ServerState, n: nat): (r: nat)
    requires Contiguous(s.log)
    ensures r == s.commitIndex || (s.commitIndex < r <= n && Committable(s, r))
  {
    if n <= s.commitIndex then s.commitIndex
    else if Committable(s, n) then n
    else ScanDown(s, n - 1)
  }

  function AdvanceCommit(s: ServerState, saved: bool): ServerState
    requires Contiguous(s.log)
  {
    if s.role != Leader then s
    else
      var n := ScanDown(s, LastIndex(s.log));
      if n == s.commitIndex then s else ApplyCommitted(s.(commitIndex := n), saved)
  }

  function Submit(s: ServerState, cmd: Option<Str>, saved: bool): ServerState
    requires Contiguous(s.log)
  {
    if s.role != Leader || s.stopped then s
    else
      var idx := LastIndex(s.log) + 1;
      AdvanceCommit(Persist(s.(log := s.log + [LogEntry(s.term, idx, cmd)],
                               matchIndex := s.matchIndex[s.id := idx])), saved)
  }

  function NextFor(s: ServerState, peer: NodeId): nat { Max(Get(s.nextIndex, peer), 1) }

  /** The request replicateTo builds; a follower at or below the snapshot boundary gets a snapshot instead. */
  function BuildAppend(s: ServerState, peer: NodeId): (r: Option<AppendArgs>)
    requires Contiguous(s.log)
    ensures r.Some? ==> r.value.term == s.term && r.value.leaderCommit == s.commitIndex
  {
    var next := NextFor(s, peer);
    if s.role != Leader || next <= BaseIndex(s.log) then None
    else
      var prevTerm := match TermAt(s.log, next - 1) case None => 0 case Some(t) => t;
      var entries := if LastIndex(s.log) >= next then s.log[next - BaseIndex(s.log)..] else [];
      Some(AppendArgs(s.term, s.id, next - 1, prevTerm, entries, s.commitIndex))
  }

  /** The reply to a request of term reqTerm whose last entry had index sent. */
  function HandleAppendReply(s: ServerState, peer: NodeId, reqTerm: nat, sent: nat, r: AppendReply, saved: bool): ServerState
    requires Contiguous(s.log)
  {
    if r.term > s.term then Persist(BecomeFollower(s, r.term))
    else if s.role != Leader || s.term != reqTerm then s
    else if r.success then
      AdvanceCommit(if sent > Get(s.matchIndex, peer)
                    then s.(matchIndex := s.matchIndex[peer := sent], nextIndex := s.nextIndex[peer := sent + 1])
                    else s, saved)
    else if Get(s.nextIndex, peer) > 1 then
      s.(nextIndex := s.nextIndex[peer := s.nextIndex[peer] - 1])
    else s
  }

  // ----- snapshots -----

  function DiscardThrough(log: seq<LogEntry>, idx: nat, term: nat): (r: seq<LogEntry>)
    requires Contiguous(log) && BaseIndex(log) <= idx <= LastIndex(log)
    ensures Contiguous(r) && BaseIndex(r) == idx && LastIndex(r) == LastIndex(log)
  {
    [LogEntry(term, idx, None)] + log[idx - BaseIndex(log) + 1..]
  }

  /** Figure 13 rule 6: keep the tail behind a matching entry, otherwise start over at the boundary. */
  function RebaseLog(log: seq<LogEntry>, idx: nat, term: nat): (r: seq<LogEntry>)
    requires Contiguous(log)
    ensures Contiguous(r) && BaseIndex(r) == idx
  {
    if TermAt(log, idx) == Some(term) then DiscardThrough(log, idx, term) else [LogEntry(term, idx, None)]
  }

  /** What sendSnapshotTo sends a follower that needs discarded entries. */
  function BuildInstall(s: ServerState): Option<InstallArgs> {
    if s.role != Leader || s.snapshot == None then None
    else
      var sn := s.snapshot.value;
      Some(InstallArgs(s.term, s.id, sn.lastIndex, sn.lastTerm, Some(sn.fed)))
  }

  /** The reply to a snapshot through last; it carries a term and nothing else. */
  function HandleInstallReply(s: ServerState, peer: NodeId, reqTerm: nat, last: nat, replyTerm: nat, saved: bool): ServerState
    requires Contiguous(s.log)
  {
    if replyTerm > s.term then Persist(BecomeFollower(s, replyTerm))
    else if s.role != Leader || s.term != reqTerm then s
    else
      AdvanceCommit(s.(matchIndex := if last > Get(s.matchIndex, peer) then s.matchIndex[peer := last] else s.matchIndex,
                       nextIndex := if last + 1 > Get(s.nextIndex, peer) then s.nextIndex[peer := last + 1] else s.nextIndex),
                    saved)
  }

  /** Neither already covered nor undecodable. */
  predicate Takes(s: ServerState, a: InstallArgs)
    requires |s.log| > 0
  {
    a.lastIndex > BaseIndex(s.log) && a.lastIndex > s.lastApplied && a.data.Some?
  }

  /** A later term adopted in memory only: the replies that take no snapshot do not write the state file. */
  predicate Forgets(s: ServerState, a: InstallArgs)
    requires |s.log| > 0
  {
    a.term > s.term && !Takes(s, a)
  }

  function HandleInstall(s: ServerState, a: InstallArgs): (ServerState, nat)
    requires Contiguous(s.log)
  {
    if a.term < s.term then (s, s.term)
    else
      var s1 := ObserveTerm(s, a.term).(leaderId := a.leader);
      if a.lastIndex <= BaseIndex(s1.log) || a.lastIndex <= s1.lastApplied || a.data == None then (s1, s1.term)
      else
        var snap := Snapshot(a.lastIndex, a.lastTerm, a.data.value);
        var s2 := s1.(
          log := RebaseLog(s1.log, a.lastIndex, a.lastTerm),
          fed := a.data.value,
          lastApplied := a.lastIndex,
          commitIndex := Max(s1.commitIndex, a.lastIndex),
          snapshot := Some(snap),
          disk := s1.disk.(snapshot := Some(snap)));
        (Persist(s2), s2.term)
  }

  /**
   The counterpart of a snapshot on servers that keep their whole log: the prefix it covers, sent and
   taken entry by entry.
   */
  function BuildOffer(s: ServerState, upto: nat): AppendArgs
    requires upto < |s.log|
  {
    AppendArgs(s.term, s.id, 0, 0, s.log[1..upto + 1], upto)
  }

  predicate IsOffer(a: AppendArgs) { a.prevIndex == 0 && a.prevTerm == 0 && a.leaderCommit == |a.entries| }

  /** decoded says whether the snapshot could be read; like InstallSnapshot, only an offer taken reaches the disk. */
  function HandleOffer(s: ServerState, a: AppendArgs, decoded: bool): (ServerState, nat)
    requires Contiguous(s.log)
  {
    if a.term < s.term then (s, s.term)
    else
      var s1 := ObserveTerm(s, a.term).(leaderId := a.leader);
      if !decoded || |a.entries| <= s1.lastApplied then (s1, s1.term)
      else
        var s2 := ApplyCommitted(s1.(log := AppendFrom(s1.log, 0, a.entries), commitIndex := |a.entries|), false);
        (Persist(s2.(commitIndex := Max(s1.commitIndex, |a.entries|))), s1.term)
  }

  /** How far MaybeCompact got before the process died. */
  datatype CrashPoint = BeforeSave | AfterSave | Finished

  predicate WantsCompaction(s: ServerState, threshold: nat)
    requires Contiguous(s.log)
  {
    s.lastApplied > BaseIndex(s.log) && |s.log| - 1 >= threshold && s.lastApplied <= LastIndex(s.log)
  }

  function MaybeCompact(s: ServerState, threshold: nat, point: CrashPoint): ServerState
    requires Contiguous(s.log)
  {
    if !WantsCompaction(s, threshold) || point == BeforeSave then s
    else
      var term := s.log[s.lastApplied - BaseIndex(s.log)].term;
      var snap := Snapshot(s.lastApplied, term, s.fed);
      var s1 := s.(disk := s.disk.(snapshot := Some(snap)));
      if point == AfterSave then s1
      else Persist(s1.(log := DiscardThrough(s1.log, s1.lastApplied, term), snapshot := Some(snap)))
  }

  // ----- restart -----

  /** The snapshot part of Restore: restore the machine, then rebase a log that predates the snapshot. */
  function LoadSnapshot(s: ServerState): (r: ServerState)
    requires Contiguous(s.log)
    ensures Contiguous(r.log)
  {
    match s.disk.snapshot
    case None => s
    case Some(snap) =>
      s.(snapshot := Some(snap), fed := snap.fed, commitIndex := snap.lastIndex, lastApplied := snap.lastIndex,
         log := if BaseIndex(s.log) < snap.lastIndex
                then RebaseLog(s.log, snap.lastIndex, snap.lastTerm) else s.log)
  }

  /** The applied marker, clamped to what the log holds. */
  function ReplayTo(log: seq<LogEntry>, marker: nat): (r: nat)
    requires Contiguous(log)
    ensures BaseIndex(log) <= r <= LastIndex(log)
  {
    Min(Max(marker, BaseIndex(log)), LastIndex(log))
  }

  /** Restore on a freshly constructed server.  A saved log always holds its sentinel. */
  function Restore(s: ServerState): ServerState
    requires s.disk.state.Some? ==> Contiguous(s.disk.state.value.log)
  {
    match s.disk.state
    case None => s
    case Some(d) =>
      var s1 := LoadSnapshot(s.(term := d.term, votedFor := d.votedFor, log := d.log, role := Follower,
                                commitIndex := 0, lastApplied := 0));
      var upto := ReplayTo(s1.log, s.disk.marker);
      s1.(fed := s1.fed + Commands(s1.log, BaseIndex(s1.log), upto),
          commitIndex := Max(s1.commitIndex, upto),
          lastApplied := Max(s1.lastApplied, upto))
  }

  /** The process dies and comes back with only its disk. */
  function Restart(s: ServerState): ServerState
    requires s.disk.state.Some? ==> Contiguous(s.disk.state.value.log)
  {
    Restore(NewServer(s.id, s.peers, s.disk))
  }
}
