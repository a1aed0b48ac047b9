/** Every step of the protocol keeps the invariant and only lets the past grow. */
module RaftPreservation {
  import opened RaftLog
  import opened RaftState
  import opened RaftCluster
  import opened RaftInvariant
  import opened RaftFrame
  import opened RaftSteps

  lemma ServerLogs(c: Cluster, s: ServerState)
    requires ServerOk(c, s)
    ensures Contiguous(s.log)
    ensures s.disk.state.Some? ==> Contiguous(s.disk.state.value.log)
  {
  }

  lemma InvLogs(c: Cluster)
    requires Inv(c)
    ensures LogsWellFormed(c)
  {
    hide HistoryOk, MessageOk, ServerOk, Contiguous;
    forall p | p in c.servers
      ensures
        && Contiguous(c.servers[p].log)
        && (c.servers[p].disk.state.Some? ==> Contiguous(c.servers[p].disk.state.value.log))
    {
      ServerLogs(c, Settled(c.servers[p]));
    }
  }

  lemma MessagesGrow(c: Cluster, d: Cluster, sent: set<Message>)
    requires MessagesOk(c) && Grows(c, d) && d.net == c.net + sent
    requires forall m :: m in sent ==> MessageOk(d, m)
    ensures MessagesOk(d)
  {
    forall m | m in d.net
      ensures MessageOk(d, m)
    {
      if m in c.net {
        MessageOkGrows(c, d, m);
      }
    }
  }

  lemma ServersGrow(c: Cluster, d: Cluster, me: ServerState)
    requires MessagesOk(c) && ServersOk(c) && Grows(c, d)
    requires me.id in c.servers && d.servers == c.servers[me.id := me]
    requires forall v :: v != me.id ==> Quiet(c, d, v)
    requires Sound(d, me)
    ensures ServersOk(d)
  {
    hide Sound;
    forall p | p in d.servers
      ensures d.servers[p].id == p && Sound(d, d.servers[p])
    {
      if p != me.id {
        BystanderSound(c, d, c.servers[p]);
      }
    }
  }

  /** A server whose memory is on disk. */
  lemma OkSound(c: Cluster, s: ServerState)
    requires ServerOk(c, s)
    ensures Sound(c, s) && Settled(s) == s
  {
  }

  lemma AssembleSound(c: Cluster, d: Cluster, me: ServerState, sent: set<Message>)
    requires Inv(c) && me.id in c.servers && d == Update(c, me, sent, d.h)
    requires Grows(c, d)
    requires forall v :: v != me.id ==> Quiet(c, d, v)
    requires HistoryOk(d.members, d.h, d.net)
    requires forall m :: m in sent ==> MessageOk(d, m)
    requires Sound(d, me)
    ensures Inv(d)
  {
    hide HistoryOk, MessageOk, Sound;
    MessagesGrow(c, d, sent);
    ServersGrow(c, d, me);
  }

  /** The parts of a step's proof, put together. */
  lemma Assemble(c: Cluster, d: Cluster, me: ServerState, sent: set<Message>)
    requires Inv(c) && me.id in c.servers && d == Update(c, me, sent, d.h)
    requires Grows(c, d)
    requires forall v :: v != me.id ==> Quiet(c, d, v)
    requires HistoryOk(d.members, d.h, d.net)
    requires forall m :: m in sent ==> MessageOk(d, m)
    requires ServerOk(d, me)
    ensures Inv(d)
  {
    hide Inv, HistoryOk, MessageOk, ServerOk, Grows, Quiet;
    OkSound(d, me);
    AssembleSound(c, d, me, sent);
  }

  // ----- steps in which nobody makes a new promise -----

  lemma HistoryGrowsQuietly(c: Cluster, d: Cluster)
    requires HistoryOk(c.members, c.h, c.net) && MessagesOk(c) && Grows(c, d) && d.h == c.h
    requires forall v :: Quiet(c, d, v)
    ensures HistoryOk(d.members, d.h, d.net)
  {
    forall t, v | (t, v) in d.h.ballots && Counts(d.h, t, v)
      ensures Retains(d.h.reigns, d.net, v, d.h.ballots[(t, v)].log, t)
    {
      QuietNoNewAcks(c, d, v, t);
      RetainsGrows(c, d, v, c.h.ballots[(t, v)].log, t);
    }
  }

  lemma QuietGrows(c: Cluster, d: Cluster, me: ServerState, sent: set<Message>)
    requires d == Update(c, me, sent, c.h)
    requires forall m :: m in sent ==> !(m.AppendAnswer? && m.appendReply.success)
    ensures Grows(c, d)
    ensures forall v :: Quiet(c, d, v)
  {
  }

  lemma QuietMessages(c: Cluster, d: Cluster, sent: set<Message>)
    requires Grows(c, d)
    requires forall m :: m in sent ==> MessageOk(c, m)
    ensures forall m :: m in sent ==> MessageOk(d, m)
  {
    forall m | m in sent
      ensures MessageOk(d, m)
    {
      MessageOkGrows(c, d, m);
    }
  }

  lemma QuietSound(c: Cluster, me: ServerState, sent: set<Message>)
    requires Inv(c) && me.id in c.servers && Sound(c, me)
    requires forall m :: m in sent ==> !(m.AppendAnswer? && m.appendReply.success)
    requires forall m :: m in sent ==> MessageOk(c, m)
    ensures Inv(Update(c, me, sent, c.h)) && Grows(c, Update(c, me, sent, c.h))
  {
    hide HistoryOk, MessageOk, Sound;
    var d := Update(c, me, sent, c.h);
    QuietGrows(c, d, me, sent);
    HistoryGrowsQuietly(c, d);
    QuietMessages(c, d, sent);
    BystanderSound(c, d, me);
    AssembleSound(c, d, me, sent);
  }

  lemma QuietStep(c: Cluster, me: ServerState, sent: set<Message>)
    requires Inv(c) && me.id in c.servers && ServerOk(c, me)
    requires forall m :: m in sent ==> !(m.AppendAnswer? && m.appendReply.success)
    requires forall m :: m in sent ==> MessageOk(c, m)
    ensures Inv(Update(c, me, sent, c.h)) && Grows(c, Update(c, me, sent, c.h))
  {
    hide Inv, MessageOk, ServerOk, Grows;
    OkSound(c, me);
    QuietSound(c, me, sent);
  }

  /** The server taking the step has everything on disk. */
  ghost predicate Ready(c: Cluster, step: Step) {
    step.s in c.servers && ServerOk(c, c.servers[step.s])
  }

  lemma VoteAnswerOk(c: Cluster, s: ServerState, m: Message)
    requires ServerOk(c, s) && m.VoteAnswer? && m.to == s.id && MessageOk(c, m)
    ensures ServerOk(c, HandleVoteReply(s, m.from, m.reqTerm, m.voteReply))
  {
    var r := HandleVoteReply(s, m.from, m.reqTerm, m.voteReply);
    if m.voteReply.term > s.term {
      AdoptOk(c, s, m.voteReply.term);
    } else {
      assert Synced(r) && TermBounds(c, r) && VoteOk(c, r) && CandidateOk(c, r) && LeaderOk(c, r) && AppliedOk(c, r);
    }
  }

  lemma VoteAnswerStep(c: Cluster, step: Step)
    requires Inv(c) && step.ReceiveVoteAnswer? && Enabled(c, step) && Ready(c, step)
    ensures LogsWellFormed(c) && Inv(Next(c, step)) && Grows(c, Next(c, step))
  {
    hide HistoryOk, MessageOk, ServerOk, Contiguous;
    InvLogs(c);
    var s, m := c.servers[step.s], step.m;
    VoteAnswerOk(c, s, m);
    QuietStep(c, HandleVoteReply(s, m.from, m.reqTerm, m.voteReply), {});
  }

  lemma ReplicateStep(c: Cluster, step: Step)
    requires Inv(c) && step.Replicate? && Enabled(c, step) && Ready(c, step)
    ensures LogsWellFormed(c) && Inv(Next(c, step)) && Grows(c, Next(c, step))
  {
    hide HistoryOk, MessageOk, ServerOk, Contiguous;
    InvLogs(c);
    var s := c.servers[step.s];
    match BuildAppend(s, step.peer)
    case None => QuietStep(c, s, {});
    case Some(a) =>
      BuiltMessageOk(c, s, step.peer);
      QuietStep(c, s, {AppendRequest(a)});
  }

  /** A leader begins by appending an entry of its own term, and only appends. */
  lemma ReignEnds(c: Cluster, t: nat)
    requires HistoryOk(c.members, c.h, c.net) && t in c.h.reigns
    ensures |c.h.reigns[t].log| > 0 && LastTerm(c.h.reigns[t].log) == t
  {
    assert ReignOk(c.members, c.h, t);
  }

  /** replicateTo never sends a commit index beyond the entries it sends. */
  lemma BuiltMessageOk(c: Cluster, s: ServerState, peer: NodeId)
    requires HistoryOk(c.members, c.h, c.net) && ServerOk(c, s) && peer in c.members
    requires BuildAppend(s, peer).Some?
    ensures MessageOk(c, AppendRequest(BuildAppend(s, peer).value))
  {
    hide HistoryOk, Anchored, Retains, TermBounds, VoteOk, CandidateOk, CommittedTo, MatchOk, Commands;
    var a := BuildAppend(s, peer).value;
    ReignEnds(c, s.term);
    assert a.prevIndex + |a.entries| == |s.log| - 1;
    assert a.entries == s.log[a.prevIndex + 1..a.prevIndex + |a.entries| + 1];
  }

  lemma HaltOk(c: Cluster, s: ServerState)
    requires ServerOk(c, s)
    ensures ServerOk(c, s.(stopped := true))
  {
    var r := s.(stopped := true);
    assert Synced(r) && TermBounds(c, r) && VoteOk(c, r) && CandidateOk(c, r) && LeaderOk(c, r) && AppliedOk(c, r);
  }

  lemma HaltStep(c: Cluster, step: Step)
    requires Inv(c) && step.Halt? && Enabled(c, step) && Ready(c, step)
    ensures LogsWellFormed(c) && Inv(Next(c, step)) && Grows(c, Next(c, step))
  {
    hide HistoryOk, MessageOk, ServerOk, Contiguous;
    InvLogs(c);
    HaltOk(c, c.servers[step.s]);
    QuietStep(c, c.servers[step.s].(stopped := true), {});
  }

  lemma CrashStep(c: Cluster, step: Step)
    requires Inv(c) && step.CrashRestart? && Enabled(c, step)
    ensures LogsWellFormed(c) && Inv(Next(c, step)) && Grows(c, Next(c, step))
  {
    hide HistoryOk, MessageOk, ServerOk, Contiguous;
    InvLogs(c);
    var s := Settled(c.servers[step.s]);
    MarkedOk(c, s, step.upto);
    RestartOk(c, Marked(s, step.upto));
    QuietStep(c, Restart(Marked(s, step.upto)), {});
  }

  lemma MarkedOk(c: Cluster, s: ServerState, upto: nat)
    requires ServerOk(c, s) && upto <= s.lastApplied
    ensures ServerOk(c, Marked(s, upto))
  {
    var r := Marked(s, upto);
    assert Synced(r) && TermBounds(c, r) && VoteOk(c, r) && CandidateOk(c, r) && LeaderOk(c, r) && AppliedOk(c, r);
  }

  function Matched(s: ServerState, from: NodeId, sent: nat): ServerState {
    s.(matchIndex := s.matchIndex[from := sent], nextIndex := s.nextIndex[from := sent + 1])
  }

  /** A successful reply lets the leader raise matchIndex to what the peer acknowledged. */
  lemma MatchedLeaderOk(c: Cluster, s: ServerState, m: Message)
    requires LeaderOk(c, s) && s.role == Leader && MessageOk(c, m)
    requires m in c.net && m.AppendAnswer? && m.reqTerm == s.term && m.appendReply.success
    ensures LeaderOk(c, Matched(s, m.from, m.sent))
  {
    hide CommittedTo;
    assert AnswerFrom(m, m.from, s.term);
    assert Acked(c.h.reigns, c.net, m.from, s.term, m.sent);
    forall p | p in c.members
      ensures MatchOk(c, Matched(s, m.from, m.sent), p)
    {
      assert MatchOk(c, s, p);
    }
  }

  lemma MatchedOk(c: Cluster, s: ServerState, m: Message)
    requires ServerOk(c, s) && s.role == Leader && MessageOk(c, m)
    requires m in c.net && m.AppendAnswer? && m.reqTerm == s.term && m.appendReply.success
    ensures ServerOk(c, Matched(s, m.from, m.sent))
  {
    var r := Matched(s, m.from, m.sent);
    MatchedLeaderOk(c, s, m);
    assert Synced(r) && TermBounds(c, r) && VoteOk(c, r) && CandidateOk(c, r) && AppliedOk(c, r);
  }

  lemma BackedUpOk(c: Cluster, s: ServerState, peer: NodeId)
    requires ServerOk(c, s) && Get(s.nextIndex, peer) > 1
    ensures ServerOk(c, s.(nextIndex := s.nextIndex[peer := s.nextIndex[peer] - 1]))
  {
    var r := s.(nextIndex := s.nextIndex[peer := s.nextIndex[peer] - 1]);
    assert forall p :: MatchOk(c, s, p) ==> MatchOk(c, r, p);
    assert LeaderOk(c, r);
    assert Synced(r) && TermBounds(c, r) && VoteOk(c, r) && CandidateOk(c, r) && AppliedOk(c, r);
  }

  lemma AppendAnswerOk(c: Cluster, s: ServerState, m: Message, saved: bool)
    requires Distinct(c.members) && ServerOk(c, s) && MessageOk(c, m) && m in c.net && m.AppendAnswer?
    ensures ServerOk(c, HandleAppendReply(s, m.from, m.reqTerm, m.sent, m.appendReply, saved))
  {
    if m.appendReply.term > s.term {
      AdoptOk(c, s, m.appendReply.term);
    } else if s.role == Leader && s.term == m.reqTerm {
      if m.appendReply.success {
        if m.sent > Get(s.matchIndex, m.from) {
          MatchedOk(c, s, m);
          AdvanceOk(c, Matched(s, m.from, m.sent), saved);
        } else {
          AdvanceOk(c, s, saved);
        }
      } else if Get(s.nextIndex, m.from) > 1 {
        BackedUpOk(c, s, m.from);
      }
    }
  }

  lemma AppendAnswerStep(c: Cluster, step: Step)
    requires Inv(c) && step.ReceiveAppendAnswer? && Enabled(c, step) && Ready(c, step)
    ensures LogsWellFormed(c) && Inv(Next(c, step)) && Grows(c, Next(c, step))
  {
    hide HistoryOk, MessageOk, ServerOk, Contiguous;
    InvLogs(c);
    var s, m := c.servers[step.s], step.m;
    AppendAnswerOk(c, s, m, step.saved);
    QuietStep(c, HandleAppendReply(s, m.from, m.reqTerm, m.sent, m.appendReply, step.saved), {});
  }
}
