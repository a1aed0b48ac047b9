/**
 A server that has heard of a later term, and not written it down, keeps every promise as well: whatever it
 does next it would have done the same with the term on disk, or it is nothing that anyone could hold it to.

 This covers the replies of InstallSnapshot that take no snapshot, which adopt a term in memory only.
 */
module RaftHearing {
  import opened RaftLog
  import opened RaftState
  import opened RaftCluster
  import opened RaftInvariant
  import opened RaftPreservation
  import opened RaftElection
  import opened RaftReplication
  import opened RaftOffers

  /** Memory is ahead of the disk. */
  ghost predicate Ahead(s: ServerState) { Hearing(s) && Settled(s) != s }

  /** Nothing changed that a restart would bring back. */
  ghost predicate Aside(s: ServerState, s': ServerState) {
    s.term <= s'.term && s' == s.(term := s'.term, leaderId := s'.leaderId, stopped := s'.stopped)
  }

  /** An accepted request changes the log of a server that is behind its term. */
  ghost predicate Extending(s: ServerState, a: AppendArgs)
    requires Contiguous(s.log)
  {
    a.term == s.term && MatchesPrev(s.log, a.prevIndex, a.prevTerm) ==>
      a.prevIndex <= LastIndex(s.log) && AppendFrom(s.log, a.prevIndex, a.entries) != s.log
  }

  // ----- handlers -----

  lemma AppendSame(s: ServerState, a: AppendArgs, saved: bool)
    requires Ahead(s) && Contiguous(s.log) && Extending(s, a)
    ensures HandleAppend(s, a, saved).1 == HandleAppend(Persist(s), a, saved).1
      && HandleAppend(s, a, saved).0.id == s.id
    ensures
      var (s', r) := HandleAppend(s, a, saved);
      s' == HandleAppend(Persist(s), a, saved).0 || (Aside(s, s') && !r.success)
  {
    hide ApplyCommitted, AppendFrom, MatchesPrev, Contiguous;
    AppendKeepsId(s, a, saved);
    if !s.stopped && a.term >= s.term && MatchesPrev(s.log, a.prevIndex, a.prevTerm) {
      MatchesPrevInRange(s.log, a.prevIndex, a.prevTerm);
      var log := AppendFrom(s.log, a.prevIndex, a.entries);
      assert log != s.log || a.term > s.term;
    }
  }

  lemma VoteSame(s: ServerState, a: VoteArgs, recent: bool)
    requires Ahead(s) && |s.log| > 0
    ensures HandleVote(s, a, recent).1 == HandleVote(Persist(s), a, recent).1 && HandleVote(s, a, recent).0.id == s.id
    ensures
      var (s', r) := HandleVote(s, a, recent);
      s' == HandleVote(Persist(s), a, recent).0 || (Aside(s, s') && !r.granted)
  {
    hide UpToDate;
  }

  lemma OfferSame(s: ServerState, a: AppendArgs, decoded: bool)
    requires Ahead(s) && Contiguous(s.log)
    ensures HandleOffer(s, a, decoded).1 == HandleOffer(Persist(s), a, decoded).1
      && HandleOffer(s, a, decoded).0.id == s.id
    ensures
      var s' := HandleOffer(s, a, decoded).0;
      s' == HandleOffer(Persist(s), a, decoded).0 || Aside(s, s')
  {
    hide ApplyCommitted, AppendFrom, Contiguous;
    OfferKeepsId(s, a, decoded);
    var x := Heard(s, a).(log := AppendFrom(s.log, 0, a.entries), commitIndex := |a.entries|);
    ApplyIgnoresDisk(x, x.(disk := Persist(s).disk));
  }

  lemma RestSame(s: ServerState, step: Step)
    requires Ahead(s) && Contiguous(s.log) && WellAddressed(step)
    requires !step.CrashRestart? && !step.ReceiveAppend? && !step.ReceiveVote? && !step.TakeOffer? && !step.Lead?
      && !step.Offer?
    ensures Sent(s, step) == Sent(Persist(s), step)
    ensures After(s, step) == After(Persist(s), step)
      || (Aside(s, After(s, step)) && Sent(s, step) == {} && !step.Campaign?)
    ensures After(s, step).log == s.log && After(s, step).id == s.id
  {
    hide Contiguous;
  }

  /** A request of the term ends in an entry of that term, which a server behind the term cannot hold. */
  lemma RequestExtends(c: Cluster, s: ServerState, a: AppendArgs)
    requires HistoryOk(c.members, c.h, c.net) && Sound(c, s) && Ahead(s) && Vouched(c, a) && OwnTerm(c, a)
      && Contiguous(s.log)
    ensures Extending(s, a)
  {
    hide HistoryOk, Retains, VoteOk, CandidateOk, LeaderOk, AppliedOk, AnchoredAt, Matching, Overwrite, AppendFrom,
         MatchesPrev, CommittedTo;
    if a.term == s.term && MatchesPrev(s.log, a.prevIndex, a.prevTerm) {
      var leader, last := c.h.reigns[a.term].log, a.prevIndex + |a.entries|;
      ReceivedLog(c, s, a);
      ReignAnchored(c, a.term);
      OverwriteAnchored(c, s.log, leader, last);
      var log := AppendFrom(s.log, a.prevIndex, a.entries);
      assert log[last] == log[..last + 1][last] == leader[..last + 1][last] == leader[last];
    }
  }

  // ----- steps -----

  /** Every step of a server whose memory is on disk. */
  lemma ReadyPreserves(c: Cluster, step: Step)
    requires Inv(c) && Enabled(c, step) && Ready(c, step)
    ensures LogsWellFormed(c) && Inv(Next(c, step)) && Grows(c, Next(c, step))
  {
    hide Inv, Next, Grows, LogsWellFormed, Ready;
    match step
    case Campaign(_) => CampaignStep(c, step);
    case ReceiveVote(_, _, _) => VoteStep(c, step);
    case ReceiveVoteAnswer(_, _) => VoteAnswerStep(c, step);
    case Lead(_, _) => LeadStep(c, step);
    case Propose(_, _, _) => ProposeStep(c, step);
    case Replicate(_, _) => ReplicateStep(c, step);
    case ReceiveAppend(_, _, _) => AppendStep(c, step);
    case ReceiveAppendAnswer(_, _, _) => AppendAnswerStep(c, step);
    case Halt(_) => HaltStep(c, step);
    case CrashRestart(_, _) => CrashStep(c, step);
    case Offer(_, _) => OfferStep(c, step);
    case TakeOffer(_, _, _) => TakeOfferStep(c, step);
    case OfferAnswered(_, _, _) => OfferAnsweredStep(c, step);
    case Flush(_) => FlushStep(c, step);
  }

  /** d is c with what server p has heard written down. */
  ghost predicate Flushed(c: Cluster, d: Cluster, p: NodeId) {
    p in c.servers && d == c.(servers := c.servers[p := Persist(c.servers[p])])
  }

  /** A handler that does the same either way leads to the same cluster. */
  lemma NextSame(c: Cluster, d: Cluster, step: Step)
    requires LogsWellFormed(c) && LogsWellFormed(d) && Enabled(c, step) && Enabled(d, step) && Flushed(c, d, step.s)
    requires !step.CrashRestart? && !step.Lead? && c.servers[step.s].id == step.s && WellAddressed(step)
    requires After(c.servers[step.s], step) == After(d.servers[step.s], step)
      && Sent(c.servers[step.s], step) == Sent(d.servers[step.s], step)
    requires After(c.servers[step.s], step).id == step.s
    requires step.ReceiveVote? ==>
      HandleVote(c.servers[step.s], step.m.args, step.recent).1
      == HandleVote(d.servers[step.s], step.m.args, step.recent).1
    ensures Next(c, step) == Next(d, step)
  {
    hide After, Sent, Next, Contiguous, HandleVote;
    var me := After(c.servers[step.s], step);
    NextShape(c, step);
    NextShape(d, step);
    HistorySame(c, d, step);
    assert d.servers[step.s := me] == c.servers[step.s := me];
  }

  lemma HistorySame(c: Cluster, d: Cluster, step: Step)
    requires LogsWellFormed(c) && LogsWellFormed(d) && Enabled(c, step) && Enabled(d, step) && Flushed(c, d, step.s)
    requires !step.CrashRestart? && !step.Lead? && WellAddressed(step)
    requires After(c.servers[step.s], step) == After(d.servers[step.s], step)
    requires step.ReceiveVote? ==>
      HandleVote(c.servers[step.s], step.m.args, step.recent).1
      == HandleVote(d.servers[step.s], step.m.args, step.recent).1
    ensures Next(c, step).h == Next(d, step).h
  {
    hide HandleAppend, HandleVote, HandleVoteReply, BecomeLeader, Submit, HandleAppendReply, BuildAppend, BuildOffer,
         HandleOffer, HandleInstallReply, Restart, Contiguous;
  }

  /** A server that stands aside promises nothing new. */
  lemma AsideSound(c: Cluster, s: ServerState, s': ServerState)
    requires Sound(c, s) && Ahead(s) && Aside(s, s')
    ensures Sound(c, s') && s'.id == s.id
  {
    hide ServerOk;
    NamedOk(c, Settled(s), s'.leaderId);
    if s'.stopped {
      HaltOk(c, Settled(s).(leaderId := s'.leaderId));
    } else {
      RunningOk(c, Settled(s).(leaderId := s'.leaderId));
    }
  }

  lemma RunningOk(c: Cluster, s: ServerState)
    requires ServerOk(c, s)
    ensures ServerOk(c, s.(stopped := false))
  {
    var r := s.(stopped := false);
    assert Synced(r) && TermBounds(c, r) && VoteOk(c, r) && CandidateOk(c, r) && LeaderOk(c, r) && AppliedOk(c, r);
  }

  /** What a server may send without promising anything. */
  ghost predicate Idle(c: Cluster, sent: set<Message>) {
    forall m :: m in sent ==> MessageOk(c, m) && !(m.AppendAnswer? && m.appendReply.success)
  }

  /** Either way of a step of a server that is ahead of its disk. */
  lemma AheadChoice(c: Cluster, d: Cluster, step: Step)
    requires Inv(c) && LogsWellFormed(c) && Enabled(c, step) && !step.CrashRestart? && Ahead(c.servers[step.s])
    requires Flushed(c, d, step.s) && LogsWellFormed(d) && Enabled(d, step)
    ensures Next(c, step) == Next(d, step) ||
      exists s', sent :: Aside(c.servers[step.s], s') && Idle(c, sent) && Next(c, step) == Update(c, s', sent, c.h)
  {
    hide Inv, After, Sent, HandleVote, Contiguous, Aside, Idle;
    var s := c.servers[step.s];
    NextShape(c, step);
    AheadFacts(c, step);
    var s', sent := After(s, step), Sent(s, step);
    if s' == After(Persist(s), step) && sent == Sent(Persist(s), step) {
      NextSame(c, d, step);
    } else {
      assert Aside(s, s') && Idle(c, sent) && Next(c, step) == Update(c, s', sent, c.h);
    }
  }

  /** What a server ahead of its disk does, next to the same server with its memory written down. */
  ghost predicate Alternatives(c: Cluster, step: Step)
    requires LogsWellFormed(c) && Enabled(c, step) && !step.CrashRestart? && WellAddressed(step)
  {
    var s := c.servers[step.s];
    var s', sent := After(s, step), Sent(s, step);
    && (step.ReceiveVote? ==> HandleVote(s, step.m.args, step.recent).1 == HandleVote(Persist(s), step.m.args, step.recent).1)
    && s'.id == s.id
    && ((s' == After(Persist(s), step) && sent == Sent(Persist(s), step))
        || (Aside(s, s') && Idle(c, sent) && Next(c, step).h == c.h))
  }

  lemma AheadVote(c: Cluster, step: Step)
    requires LogsWellFormed(c) && Enabled(c, step) && Ahead(c.servers[step.s]) && step.ReceiveVote?
      && WellAddressed(step)
    ensures Alternatives(c, step)
  {
    hide HandleVote;
    VoteSame(c.servers[step.s], step.m.args, step.recent);
  }

  lemma AheadAppend(c: Cluster, step: Step)
    requires LogsWellFormed(c) && Enabled(c, step) && Ahead(c.servers[step.s]) && step.ReceiveAppend?
      && WellAddressed(step)
    requires Extending(c.servers[step.s], step.m.append)
    ensures Alternatives(c, step)
  {
    hide HandleAppend, Contiguous, Extending;
    AppendSame(c.servers[step.s], step.m.append, step.saved);
  }

  lemma AheadOffer(c: Cluster, step: Step)
    requires LogsWellFormed(c) && Enabled(c, step) && Ahead(c.servers[step.s]) && step.TakeOffer? && WellAddressed(step)
    requires MessageOk(c, step.m)
    ensures Alternatives(c, step)
  {
    hide HandleOffer, Contiguous, Vouched;
    var s, a := c.servers[step.s], step.m.offer;
    OfferSame(s, a, step.decoded);
    OfferAnswerOk(c, s, a, HandleOffer(s, a, step.decoded).1);
  }

  lemma AheadRest(c: Cluster, step: Step)
    requires LogsWellFormed(c) && Enabled(c, step) && Ahead(c.servers[step.s]) && WellAddressed(step)
    requires !step.CrashRestart? && !step.ReceiveAppend? && !step.ReceiveVote? && !step.TakeOffer? && !step.Lead?
      && !step.Offer?
    ensures Alternatives(c, step)
  {
    hide After, Sent, HandleVoteReply, HandleAppendReply, HandleInstallReply, BuildAppend, Contiguous;
    RestSame(c.servers[step.s], step);
  }

  lemma AheadFacts(c: Cluster, step: Step)
    requires Inv(c) && LogsWellFormed(c) && Enabled(c, step) && !step.CrashRestart? && Ahead(c.servers[step.s])
      && WellAddressed(step)
    ensures !step.Lead? && !step.Offer? && c.servers[step.s].id == step.s && Contiguous(c.servers[step.s].log)
    ensures Alternatives(c, step)
  {
    hide HistoryOk, ServerOk, Alternatives, Vouched, OwnTerm, Contiguous, Extending;
    var s := c.servers[step.s];
    match step
    case ReceiveVote(_, _, _) => AheadVote(c, step);
    case ReceiveAppend(_, m, _) =>
      assert MessageOk(c, m);
      RequestExtends(c, s, m.append);
      AheadAppend(c, step);
    case TakeOffer(_, m, _) => AheadOffer(c, step);
    case _ => AheadRest(c, step);
  }

  /** Every step of a server that is ahead of its disk. */
  lemma AheadPreserves(c: Cluster, step: Step)
    requires Inv(c) && Enabled(c, step) && !step.CrashRestart? && Ahead(c.servers[step.s])
    ensures LogsWellFormed(c) && Inv(Next(c, step)) && Grows(c, Next(c, step))
  {
    hide Inv, Next, Grows, ServerOk, Contiguous;
    InvLogs(c);
    FlushStep(c, Flush(step.s));
    var d := Next(c, Flush(step.s));
    InvLogs(d);
    AheadChoice(c, d, step);
    if Next(c, step) == Next(d, step) {
      ReadyPreserves(d, step);
      GrowsTransitive(c, d, Next(d, step));
    } else {
      var s', sent :| Aside(c.servers[step.s], s') && Idle(c, sent) && Next(c, step) == Update(c, s', sent, c.h);
      ServerSound(c, step.s);
      AsideSound(c, c.servers[step.s], s');
      QuietSound(c, s', sent);
    }
  }

  lemma ServerSound(c: Cluster, p: NodeId)
    requires Inv(c) && p in c.servers
    ensures Sound(c, c.servers[p]) && c.servers[p].id == p
  {
  }

  /** Every step of the protocol keeps the invariant, and the past only grows. */
  lemma StepPreserves(c: Cluster, step: Step)
    requires Inv(c) && Enabled(c, step)
    ensures LogsWellFormed(c) && Inv(Next(c, step)) && Grows(c, Next(c, step))
  {
    hide Inv, Next, Grows, LogsWellFormed, ServerOk;
    ServerSound(c, step.s);
    if step.CrashRestart? {
      CrashStep(c, step);
    } else if Ahead(c.servers[step.s]) {
      AheadPreserves(c, step);
    } else {
      ReadyPreserves(c, step);
    }
  }
}
