/** Offers keep the invariant: sending a committed prefix, taking it, and hearing that it was taken. */
module RaftOffers {
  import opened Bytes
  import opened RaftLog
  import opened RaftState
  import opened RaftCluster
  import opened RaftInvariant
  import opened RaftFrame
  import opened RaftSteps
  import opened RaftPreservation
  import opened RaftReplication

  // ----- Offer -----

  lemma OfferMessage(c: Cluster, s: ServerState, upto: nat)
    requires ServerOk(c, s) && s.role == Leader && upto <= s.commitIndex && upto < |s.log|
    ensures MessageOk(c, OfferRequest(BuildOffer(s, upto)))
  {
    hide Anchored, Retains, TermBounds, VoteOk, CandidateOk, CommittedTo, MatchOk, Commands;
    CommittedPrefix(c, s.log, s.commitIndex, upto, s.term);
  }

  lemma OfferStep(c: Cluster, step: Step)
    requires Inv(c) && step.Offer? && Enabled(c, step) && Ready(c, step)
    ensures LogsWellFormed(c) && Inv(Next(c, step)) && Grows(c, Next(c, step))
  {
    hide HistoryOk, MessageOk, ServerOk, Contiguous;
    InvLogs(c);
    var s := c.servers[step.s];
    OfferMessage(c, s, step.upto);
    QuietStep(c, s, {OfferRequest(BuildOffer(s, step.upto))});
  }

  // ----- TakeOffer -----

  /** The receiver with the leader's term adopted and durable; its role is left alone in its own term. */
  function Heeding(s: ServerState, a: AppendArgs): ServerState {
    (if a.term > s.term then Persist(BecomeFollower(s, a.term)) else s).(leaderId := a.leader)
  }

  lemma HeedingOk(c: Cluster, s: ServerState, a: AppendArgs)
    requires ServerOk(c, s) && a.term >= s.term
    ensures ServerOk(c, Heeding(s, a)) && Heeding(s, a).term == a.term
  {
    if a.term > s.term {
      AdoptOk(c, s, a.term);
    }
    NamedOk(c, if a.term > s.term then Persist(BecomeFollower(s, a.term)) else s, a.leader);
  }

  lemma NamedOk(c: Cluster, s: ServerState, leader: NodeId)
    requires ServerOk(c, s)
    ensures ServerOk(c, s.(leaderId := leader))
  {
    var r := s.(leaderId := leader);
    assert Synced(r) && TermBounds(c, r) && VoteOk(c, r) && CandidateOk(c, r) && LeaderOk(c, r) && AppliedOk(c, r);
  }

  /** The receiver once it holds the prefix through k: applied through k at least, committed no less than before. */
  function Advanced(r: ServerState, k: nat): ServerState
    requires Contiguous(r.log)
  {
    ApplyCommitted(r.(commitIndex := k), false).(commitIndex := Max(r.commitIndex, k))
  }

  lemma HandleOfferParts(s: ServerState, a: AppendArgs)
    requires Contiguous(s.log) && a.term >= s.term && |a.entries| > s.lastApplied
    ensures
      var r := Received(Heeding(s, a), AppendFrom(s.log, 0, a.entries));
      HandleOffer(s, a, true) == (Persist(Advanced(r, |a.entries|)), a.term)
  {
    hide AppendFrom, ApplyCommitted, Contiguous;
    var k, log := |a.entries|, AppendFrom(s.log, 0, a.entries);
    var r := Received(Heeding(s, a), log).(commitIndex := k);
    ApplyIgnoresDisk(ObserveTerm(s, a.term).(leaderId := a.leader, log := log, commitIndex := k), r);
  }

  lemma ApplyIgnoresDisk(x: ServerState, y: ServerState)
    requires Contiguous(x.log) && y == x.(disk := y.disk)
    ensures
      var r := ApplyCommitted(x, false);
      ApplyCommitted(y, false) == r.(disk := y.disk) && r == x.(lastApplied := r.lastApplied, fed := r.fed)
  {
    hide Commands, Contiguous;
  }

  /** Stepping the commit index down to k and back up, with everything through k applied in between. */
  lemma AdvancedOk(d: Cluster, r: ServerState, k: nat)
    requires ServerOk(d, r) && r.lastApplied < k < |r.log| && CommittedTo(d, r.log, k, r.term)
    ensures ServerOk(d, Persist(Advanced(r, k)))
  {
    hide Anchored, Retains, TermBounds, CandidateOk, VoteOk, CommittedTo, Commands;
    var low := r.(commitIndex := k);
    ApplyReachesCommit(low, false);
    var q := Persist(Advanced(r, k));
    AdvancedSame(d, r, q, k);
  }

  lemma AdvancedSame(d: Cluster, r: ServerState, q: ServerState, k: nat)
    requires ServerOk(d, r) && k < |r.log| && CommittedTo(d, r.log, k, r.term)
    requires q == Persist(r.(commitIndex := Max(r.commitIndex, k), lastApplied := k, fed := Commands(r.log, 0, k)))
    requires r.lastApplied < k
    ensures ServerOk(d, q)
  {
    assert Synced(q) && TermBounds(d, q) && VoteOk(d, q) && CandidateOk(d, q) && LeaderOk(d, q) && AppliedOk(d, q);
  }

  lemma OfferReceived(c: Cluster, s: ServerState, a: AppendArgs)
    requires HistoryOk(c.members, c.h, c.net) && MessagesOk(c) && ServerOk(c, s) && Vouched(c, a)
    requires Contiguous(s.log) && IsOffer(a) && a.term >= s.term
    ensures
      var r := Received(Heeding(s, a), AppendFrom(s.log, 0, a.entries));
      ServerOk(c, r) && r.term == a.term && |a.entries| < |r.log| && CommittedTo(c, r.log, |a.entries|, a.term)
  {
    hide HistoryOk, MessageOk, Vouched, Overwrite, Matching, MatchesPrev, TermBounds, VoteOk, CandidateOk, LeaderOk,
         AppliedOk, Retains, ApplyCommitted, AppendFrom, Agree, CommittedTo;
    var f := Heeding(s, a);
    HeedingOk(c, s, a);
    assert f.log == s.log && f.id == s.id && f.lastApplied == s.lastApplied;
    FromRoot(c, s, a);
    ReceivedLog(c, f, a);
    AppendInRange(c, a);
    var r := Received(f, AppendFrom(s.log, 0, a.entries));
    ReceivedOk(c, c, f, r, |a.entries|);
    OfferCommitted(c, r, a);
  }

  lemma FromRoot(c: Cluster, s: ServerState, a: AppendArgs)
    requires HistoryOk(c.members, c.h, c.net) && Vouched(c, a) && IsOffer(a)
    requires Anchored(c.h.reigns, s.log) && Contiguous(s.log)
    ensures MatchesPrev(s.log, a.prevIndex, a.prevTerm)
  {
    hide HistoryOk, CommittedTo, AnchoredAt;
    ReignAnchored(c, a.term);
  }

  lemma OfferCommitted(d: Cluster, r: ServerState, a: AppendArgs)
    requires Vouched(d, a) && IsOffer(a) && Agree(r.log, d.h.reigns[a.term].log, |a.entries|)
    ensures CommittedTo(d, r.log, |a.entries|, a.term)
  {
    hide CommittedTo;
    CommittedToMoves(d, d.h.reigns[a.term].log, r.log, |a.entries|, a.term, a.term);
  }

  /** Taking a committed prefix keeps every promise; it needs none itself. */
  lemma TakenOk(c: Cluster, s: ServerState, a: AppendArgs)
    requires HistoryOk(c.members, c.h, c.net) && MessagesOk(c) && ServerOk(c, s) && Vouched(c, a)
    requires Contiguous(s.log) && IsOffer(a) && a.term >= s.term && |a.entries| > s.lastApplied
    ensures ServerOk(c, HandleOffer(s, a, true).0)
  {
    hide HistoryOk, MessageOk, Vouched, ServerOk, Contiguous, CommittedTo, AppendFrom, Advanced;
    OfferReceived(c, s, a);
    HandleOfferParts(s, a);
    AdvancedOk(c, Received(Heeding(s, a), AppendFrom(s.log, 0, a.entries)), |a.entries|);
  }

  /** An offer not taken is heard all the same, and a later term with it, in memory only. */
  function Heard(s: ServerState, a: AppendArgs): ServerState { ObserveTerm(s, a.term).(leaderId := a.leader) }

  lemma HeardOk(c: Cluster, s: ServerState, a: AppendArgs)
    requires ServerOk(c, s) && a.term >= s.term
    ensures Sound(c, Heard(s, a)) && Heard(s, a).id == s.id
  {
    hide Anchored, Retains, TermBounds, VoteOk, AppliedOk;
    var r := Settled(Heard(s, a));
    assert TermBounds(c, r) && VoteOk(c, r) && AppliedOk(c, r) by { DemotedOk(c, s, r); }
  }

  lemma DemotedOk(c: Cluster, s: ServerState, r: ServerState)
    requires TermBounds(c, s) && VoteOk(c, s) && AppliedOk(c, s) && r == s.(role := r.role, leaderId := r.leaderId)
    ensures TermBounds(c, r) && VoteOk(c, r) && AppliedOk(c, r)
  {
  }

  lemma OfferAnswerOk(c: Cluster, s: ServerState, a: AppendArgs, term: nat)
    requires Vouched(c, a) && IsOffer(a)
    ensures MessageOk(c, OfferAnswer(s.id, a.leader, a.term, |a.entries|, term))
  {
  }

  lemma OfferKeepsId(s: ServerState, a: AppendArgs, decoded: bool)
    requires Contiguous(s.log)
    ensures HandleOffer(s, a, decoded).0.id == s.id
  {
    hide AppendFrom, ApplyCommitted;
    ApplyIgnoresDisk(Heard(s, a).(log := AppendFrom(s.log, 0, a.entries), commitIndex := |a.entries|),
                     Heard(s, a).(log := AppendFrom(s.log, 0, a.entries), commitIndex := |a.entries|));
  }

  lemma TakeOfferStep(c: Cluster, step: Step)
    requires Inv(c) && step.TakeOffer? && Enabled(c, step) && Ready(c, step)
    ensures LogsWellFormed(c) && Inv(Next(c, step)) && Grows(c, Next(c, step))
  {
    hide HistoryOk, ServerOk, Contiguous, Vouched, ApplyCommitted, AppendFrom;
    InvLogs(c);
    var s, a := c.servers[step.s], step.m.offer;
    assert MessageOk(c, OfferRequest(a)) && step.m == OfferRequest(a);
    var (me, r) := HandleOffer(s, a, step.decoded);
    var sent := {OfferAnswer(s.id, a.leader, a.term, |a.entries|, r)};
    OfferAnswerOk(c, s, a, r);
    OfferKeepsId(s, a, step.decoded);
    if a.term < s.term {
      QuietStep(c, s, sent);
    } else if !step.decoded || |a.entries| <= s.lastApplied {
      HeardOk(c, s, a);
      QuietSound(c, me, sent);
    } else {
      TakenOk(c, s, a);
      QuietStep(c, me, sent);
    }
  }

  // ----- OfferAnswered -----

  function Raised(s: ServerState, peer: NodeId, last: nat): ServerState {
    s.(matchIndex := if last > Get(s.matchIndex, peer) then s.matchIndex[peer := last] else s.matchIndex,
       nextIndex := if last + 1 > Get(s.nextIndex, peer) then s.nextIndex[peer := last + 1] else s.nextIndex)
  }

  lemma RaisedOk(c: Cluster, s: ServerState, m: Message)
    requires ServerOk(c, s) && s.role == Leader && MessageOk(c, m) && m.OfferAnswer? && m.reqTerm == s.term
    ensures ServerOk(c, Raised(s, m.from, m.sent))
  {
    var r := Raised(s, m.from, m.sent);
    RaisedLeader(c, s, m);
    assert Synced(r) && TermBounds(c, r) && VoteOk(c, r) && CandidateOk(c, r) && AppliedOk(c, r);
  }

  /** The peer may not hold what it is counted for, but that is committed without it. */
  lemma RaisedLeader(c: Cluster, s: ServerState, m: Message)
    requires LeaderOk(c, s) && s.role == Leader && MessageOk(c, m) && m.OfferAnswer? && m.reqTerm == s.term
    ensures LeaderOk(c, Raised(s, m.from, m.sent))
  {
    hide CommittedTo, Acked;
    forall p | p in c.members
      ensures MatchOk(c, Raised(s, m.from, m.sent), p)
    {
      assert MatchOk(c, s, p);
    }
  }

  lemma AnsweredOk(c: Cluster, s: ServerState, m: Message, saved: bool)
    requires Distinct(c.members) && ServerOk(c, s) && MessageOk(c, m) && m.OfferAnswer?
    ensures Contiguous(s.log)
    ensures
      var r := HandleInstallReply(s, m.from, m.reqTerm, m.sent, m.term, saved);
      ServerOk(c, r) && r.id == s.id
  {
    hide ServerOk, MessageOk, AdvanceCommit, Contiguous;
    ServerLogs(c, s);
    if m.term > s.term {
      AdoptOk(c, s, m.term);
    } else if s.role == Leader && s.term == m.reqTerm {
      RaisedOk(c, s, m);
      AdvanceOk(c, Raised(s, m.from, m.sent), saved);
      AdvanceKeepsLog(Raised(s, m.from, m.sent), saved);
    }
  }

  lemma OfferAnsweredStep(c: Cluster, step: Step)
    requires Inv(c) && step.OfferAnswered? && Enabled(c, step) && Ready(c, step)
    ensures LogsWellFormed(c) && Inv(Next(c, step)) && Grows(c, Next(c, step))
  {
    hide HistoryOk, MessageOk, ServerOk, Contiguous, HandleInstallReply;
    InvLogs(c);
    var s, m := c.servers[step.s], step.m;
    AnsweredOk(c, s, m, step.saved);
    QuietStep(c, HandleInstallReply(s, m.from, m.reqTerm, m.sent, m.term, step.saved), {});
  }

  // ----- Flush -----

  /** What a server has heard may be written down at any time. */
  lemma FlushOk(c: Cluster, s: ServerState)
    requires Sound(c, s)
    ensures ServerOk(c, Persist(s))
  {
    if Settled(s) == s {
      var r := Persist(s);
      assert Synced(r) && TermBounds(c, r) && VoteOk(c, r) && CandidateOk(c, r) && LeaderOk(c, r) && AppliedOk(c, r);
    } else {
      AdoptOk(c, Settled(s), s.term);
      assert Persist(BecomeFollower(Settled(s), s.term)) == Persist(s);
    }
  }

  lemma FlushStep(c: Cluster, step: Step)
    requires Inv(c) && step.Flush? && Enabled(c, step)
    ensures LogsWellFormed(c) && Inv(Next(c, step)) && Grows(c, Next(c, step))
    ensures Next(c, step).h == c.h && Next(c, step).net == c.net && Next(c, step).members == c.members
    ensures Next(c, step).servers == c.servers[step.s := Persist(c.servers[step.s])]
    ensures ServerOk(Next(c, step), Persist(c.servers[step.s]))
  {
    hide HistoryOk, MessageOk, ServerOk, Contiguous, Grows;
    InvLogs(c);
    var s := c.servers[step.s];
    FlushOk(c, s);
    QuietStep(c, Persist(s), {});
    assert Next(c, step).net == c.net;
    QuietGrows(c, Next(c, step), Persist(s), {});
    BystanderOk(c, Next(c, step), Persist(s));
  }
}
