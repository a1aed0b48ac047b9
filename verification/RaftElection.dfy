/** Elections keep the invariant: campaigning, voting, taking the lead, and appending as leader. */
module RaftElection {
  import opened Bytes
  import opened RaftLog
  import opened RaftState
  import opened RaftCluster
  import opened RaftInvariant
  import opened RaftFrame
  import opened RaftSteps
  import opened RaftPreservation

  // ----- casting a ballot -----

  /** What a new ballot must satisfy when it is cast. */
  ghost predicate FreshBallot(c: Cluster, t: nat, v: NodeId, b: Ballot) {
    && (t, v) !in c.h.ballots
    && BallotOk(Cast(c.h, t, v, b), t, v)
    && (t !in c.h.reigns ==> Retains(c.h.reigns, c.net, v, b.log, t))
  }

  lemma CastGrows(c: Cluster, d: Cluster, me: ServerState, sent: set<Message>, t: nat, b: Ballot)
    requires d == Update(c, me, sent, Cast(c.h, t, me.id, b)) && (t, me.id) !in c.h.ballots
    requires forall m :: m in sent ==> !m.AppendAnswer?
    ensures Grows(c, d)
    ensures forall v :: v != me.id ==> Quiet(c, d, v)
    ensures forall v, k: nat :: NoNewAcks(c, d, v, k)
  {
    forall v, k: nat
      ensures NoNewAcks(c, d, v, k)
    {
      forall u: nat, n: nat | u < k && Acked(d.h.reigns, d.net, v, u, n)
        ensures Acked(c.h.reigns, c.net, v, u, n)
      {
        if d.h.reigns[u].leader != v {
          var m :| m in d.net && AnswerFrom(m, v, u) && n <= m.sent;
          assert m in c.net;
        }
      }
    }
  }

  lemma CastReigns(c: Cluster, d: Cluster, t: nat, v: NodeId, b: Ballot)
    requires HistoryOk(c.members, c.h, c.net) && Grows(c, d)
    requires FreshBallot(c, t, v, b) && d.h == Cast(c.h, t, v, b)
    ensures forall u :: u in d.h.reigns ==> ReignOk(d.members, d.h, u)
    ensures forall u, w :: (u, w) in d.h.ballots ==> BallotOk(d.h, u, w)
  {
    forall u | u in d.h.reigns
      ensures ReignOk(d.members, d.h, u)
    {
      assert ReignOk(c.members, c.h, u);
      AnchoredGrows(c, d, c.h.reigns[u].log);
    }
    forall u, w | (u, w) in d.h.ballots
      ensures BallotOk(d.h, u, w)
    {
      if (u, w) in c.h.ballots {
        OldBallotOk(c, d, u, w);
      }
    }
  }

  lemma OldBallotOk(c: Cluster, d: Cluster, t: nat, v: NodeId)
    requires Grows(c, d) && (t, v) in c.h.ballots && BallotOk(c.h, t, v)
    ensures BallotOk(d.h, t, v)
  {
    AnchoredGrows(c, d, c.h.ballots[(t, v)].log);
    AnchoredGrows(c, d, c.h.ballots[(t, c.h.ballots[(t, v)].candidate)].log);
  }

  lemma CastHistory(c: Cluster, d: Cluster, t: nat, v: NodeId, b: Ballot)
    requires HistoryOk(c.members, c.h, c.net) && Grows(c, d)
    requires FreshBallot(c, t, v, b) && d.h == Cast(c.h, t, v, b)
    requires forall w, k: nat :: NoNewAcks(c, d, w, k)
    ensures HistoryOk(d.members, d.h, d.net)
  {
    CastReigns(c, d, t, v, b);
    forall u, w | (u, w) in d.h.ballots && Counts(d.h, u, w)
      ensures Retains(d.h.reigns, d.net, w, d.h.ballots[(u, w)].log, u)
    {
      assert BallotOk(d.h, u, w);
      assert NoNewAcks(c, d, w, u);
      if (u, w) in c.h.ballots {
        RetainsGrows(c, d, w, c.h.ballots[(u, w)].log, u);
      } else {
        assert t in c.h.reigns ==> ReignOk(c.members, c.h, t);
        RetainsGrows(c, d, v, b.log, t);
      }
    }
  }

  // ----- Campaign -----

  lemma CampaignServer(c: Cluster, d: Cluster, s: ServerState)
    requires ServerOk(c, s) && Grows(c, d)
    requires d.h == Cast(c.h, s.term + 1, s.id, Ballot(s.id, s.log)) && (s.term + 1, s.id) !in c.h.ballots
    requires d.net == c.net + {VoteRequest(CampaignArgs(StartElection(s)))}
    requires NoNewAcks(c, d, s.id, s.term + 2)
    ensures ServerOk(d, StartElection(s))
  {
    hide Anchored, Retains, CommittedTo, Commands, Rooted;
    var r := StartElection(s);
    AnchoredGrows(c, d, s.log);
    RetainsLater(c, s, s.term + 2);
    RetainsGrows(c, d, s.id, s.log, s.term + 2);
    CommittedToLater(c, s.log, s.commitIndex, s.term, s.term + 1);
    CommittedToGrows(c, d, s.log, s.commitIndex, s.term + 1);
    assert TermBounds(d, r);
    assert VoteOk(d, r) && CandidateOk(d, r) && LeaderOk(d, r) && AppliedOk(d, r);
  }

  lemma CampaignBallot(c: Cluster, s: ServerState)
    requires ServerOk(c, s)
    ensures FreshBallot(c, s.term + 1, s.id, Ballot(s.id, s.log))
  {
  }

  lemma CampaignMessage(c: Cluster, s: ServerState)
    requires |s.log| > 0 && Rooted(s.log)
    requires (s.term + 1, s.id) in c.h.ballots && c.h.ballots[(s.term + 1, s.id)] == Ballot(s.id, s.log)
    ensures MessageOk(c, VoteRequest(CampaignArgs(StartElection(s))))
  {
  }

  lemma CampaignUpdate(c: Cluster, s: ServerState)
    requires Inv(c) && s.id in c.servers && ServerOk(c, s) && |s.log| > 0 && Rooted(s.log)
    ensures
      var me := StartElection(s);
      var d := Update(c, me, {VoteRequest(CampaignArgs(me))}, Cast(c.h, me.term, s.id, Ballot(s.id, s.log)));
      Inv(d) && Grows(c, d)
  {
    hide HistoryOk, MessageOk, ServerOk, BallotOk, Quiet, NoNewAcks;
    var me, b := StartElection(s), Ballot(s.id, s.log);
    var sent := {VoteRequest(CampaignArgs(me))};
    var d := Update(c, me, sent, Cast(c.h, me.term, s.id, b));
    CampaignBallot(c, s);
    CastGrows(c, d, me, sent, me.term, b);
    CastHistory(c, d, me.term, s.id, b);
    assert NoNewAcks(c, d, s.id, s.term + 2);
    CampaignServer(c, d, s);
    CampaignMessage(d, s);
    Assemble(c, d, me, sent);
  }

  lemma CampaignStep(c: Cluster, step: Step)
    requires Inv(c) && step.Campaign? && Enabled(c, step) && Ready(c, step)
    ensures LogsWellFormed(c) && Inv(Next(c, step)) && Grows(c, Next(c, step))
  {
    hide HistoryOk, MessageOk, Contiguous;
    InvLogs(c);
    assert ServerOk(c, c.servers[step.s]);
    CampaignUpdate(c, c.servers[step.s]);
  }

  // ----- ReceiveVote -----

  lemma RefusedVoteOk(c: Cluster, s: ServerState, a: VoteArgs, recent: bool)
    requires ServerOk(c, s) && !HandleVote(s, a, recent).1.granted
    ensures ServerOk(c, HandleVote(s, a, recent).0)
  {
    if a.term > s.term && !s.stopped && !(s.leaderId != [] && s.role == Follower && recent) {
      AdoptOk(c, s, a.term);
    }
  }

  lemma GrantedBallot(c: Cluster, s: ServerState, a: VoteArgs, recent: bool)
    requires HistoryOk(c.members, c.h, c.net) && ServerOk(c, s) && MessageOk(c, VoteRequest(a))
    requires HandleVote(s, a, recent).1.granted && (a.term, s.id) !in c.h.ballots
    ensures FreshBallot(c, a.term, s.id, Ballot(a.candidate, s.log))
  {
    hide LeaderOk, CandidateOk, AppliedOk, Synced;
    assert BallotOk(c.h, a.term, a.candidate);
    if a.term !in c.h.reigns {
      if s.term < a.term {
        RetainsLater(c, s, a.term);
      } else {
        RetainsWithout(c, s.id, s.log, a.term);
      }
    }
  }

  /** While term t has no leader, nothing can have been overwritten in it. */
  lemma RetainsWithout(c: Cluster, v: NodeId, log: seq<LogEntry>, t: nat)
    requires Retains(c.h.reigns, c.net, v, log, t + 1) && t !in c.h.reigns
    ensures Retains(c.h.reigns, c.net, v, log, t)
  {
    forall u: nat, k: nat | u < t && Acked(c.h.reigns, c.net, v, u, k)
      ensures Agree(log, c.h.reigns[u].log, k) || Overwritten(c.h.reigns, u, k, t)
    {
      if Overwritten(c.h.reigns, u, k, t + 1) {
        var w: nat :| u < w < t + 1 && w in c.h.reigns && Conflict(c.h.reigns[w].log, c.h.reigns[u].log, k);
        assert w < t;
      }
    }
  }

  lemma VoterOk(c: Cluster, d: Cluster, s: ServerState, candidate: NodeId)
    requires ServerOk(c, s) && Grows(c, d) && s.votedFor == None
    requires d.h == Cast(c.h, s.term, s.id, Ballot(candidate, s.log)) && (s.term, s.id) !in c.h.ballots
    requires forall m :: m in d.net && m.AppendAnswer? ==> m in c.net
    requires NoNewAcks(c, d, s.id, s.term + 1)
    ensures ServerOk(d, Persist(s.(votedFor := Some(candidate))))
  {
    var r := Persist(s.(votedFor := Some(candidate)));
    AnchoredGrows(c, d, s.log);
    RetainsGrows(c, d, s.id, s.log, s.term + 1);
    CommittedToGrows(c, d, s.log, s.commitIndex, s.term);
    VoterLeader(c, d, s, r);
    assert TermBounds(d, r) && VoteOk(d, r) && CandidateOk(d, r) && AppliedOk(d, r);
  }

  lemma VoterLeader(c: Cluster, d: Cluster, s: ServerState, r: ServerState)
    requires LeaderOk(c, s) && Grows(c, d) && d.h.reigns == c.h.reigns
    requires r == Persist(s.(votedFor := r.votedFor))
    ensures LeaderOk(d, r)
  {
    hide CommittedTo;
    if s.role == Leader {
      forall p | p in d.members
        ensures MatchOk(d, r, p)
      {
        MatchOkGrows(c, d, s, p);
      }
    }
  }

  /** Granting a vote already cast changes nothing. */
  lemma RepeatedVote(c: Cluster, s: ServerState, a: VoteArgs, recent: bool)
    requires ServerOk(c, s) && HandleVote(s, a, recent).1.granted && (a.term, s.id) in c.h.ballots
    requires BallotOk(c.h, a.term, s.id)
    ensures HandleVote(s, a, recent).0 == s && c.h.ballots[(a.term, s.id)].candidate == a.candidate
  {
  }

  lemma FirstVoteStep(c: Cluster, s: ServerState, a: VoteArgs, recent: bool)
    requires Inv(c) && s.id in c.servers && ServerOk(c, s) && VoteRequest(a) in c.net && |s.log| > 0
    requires HandleVote(s, a, recent).1.granted && (a.term, s.id) !in c.h.ballots
    ensures
      var (me, r) := HandleVote(s, a, recent);
      var d := Update(c, me, {VoteAnswer(s.id, a.candidate, a.term, r)}, Cast(c.h, a.term, s.id, Ballot(a.candidate, s.log)));
      Inv(d) && Grows(c, d)
  {
    hide HistoryOk, ServerOk, BallotOk, Quiet, NoNewAcks, Retains;
    var (me, r) := HandleVote(s, a, recent);
    var b := Ballot(a.candidate, s.log);
    var sent := {VoteAnswer(s.id, a.candidate, a.term, r)};
    var d := Update(c, me, sent, Cast(c.h, a.term, s.id, b));
    GrantedBallot(c, s, a, recent);
    CastGrows(c, d, me, sent, a.term, b);
    CastHistory(c, d, a.term, s.id, b);
    GrantedServer(c, d, s, a, recent);
    VoterIsMember(c, s);
    Assemble(c, d, me, sent);
  }

  lemma VoterIsMember(c: Cluster, s: ServerState)
    requires ServerOk(c, s)
    ensures s.id in c.members
  {
  }

  lemma GrantedServer(c: Cluster, d: Cluster, s: ServerState, a: VoteArgs, recent: bool)
    requires ServerOk(c, s) && Grows(c, d) && HandleVote(s, a, recent).1.granted
    requires (a.term, s.id) !in c.h.ballots && d.h == Cast(c.h, a.term, s.id, Ballot(a.candidate, s.log))
    requires forall m :: m in d.net && m.AppendAnswer? ==> m in c.net
    requires forall k: nat :: NoNewAcks(c, d, s.id, k)
    ensures ServerOk(d, HandleVote(s, a, recent).0)
  {
    hide Anchored, Retains, TermBounds, CandidateOk, LeaderOk, AppliedOk, Synced, UpToDate, Grows;
    assert NoNewAcks(c, d, s.id, a.term + 1);
    if a.term > s.term {
      AdoptOk(c, s, a.term);
      VoterOk(c, d, Persist(BecomeFollower(s, a.term)), a.candidate);
    } else {
      VoterOk(c, d, s, a.candidate);
    }
  }

  lemma OldVoteFacts(c: Cluster, s: ServerState, a: VoteArgs, recent: bool)
    requires ServerOk(c, s)
    requires HandleVote(s, a, recent).1.granted ==> (a.term, s.id) in c.h.ballots && BallotOk(c.h, a.term, s.id)
    ensures
      var (me, r) := HandleVote(s, a, recent);
      ServerOk(c, me) && me.id == s.id && MessageOk(c, VoteAnswer(s.id, a.candidate, a.term, r))
  {
    if HandleVote(s, a, recent).1.granted {
      RepeatedVote(c, s, a, recent);
    } else {
      RefusedVoteOk(c, s, a, recent);
    }
  }

  lemma OldVoteStep(c: Cluster, s: ServerState, a: VoteArgs, recent: bool)
    requires Inv(c) && s.id in c.servers && ServerOk(c, s) && |s.log| > 0
    requires HandleVote(s, a, recent).1.granted ==> (a.term, s.id) in c.h.ballots
    ensures
      var (me, r) := HandleVote(s, a, recent);
      var d := Update(c, me, {VoteAnswer(s.id, a.candidate, a.term, r)}, c.h);
      Inv(d) && Grows(c, d)
  {
    hide MessageOk, ServerOk, BallotOk, Retains, ReignOk;
    var (me, r) := HandleVote(s, a, recent);
    OldVoteFacts(c, s, a, recent);
    QuietStep(c, me, {VoteAnswer(s.id, a.candidate, a.term, r)});
  }

  lemma VoteStep(c: Cluster, step: Step)
    requires Inv(c) && step.ReceiveVote? && Enabled(c, step) && Ready(c, step)
    ensures LogsWellFormed(c) && Inv(Next(c, step)) && Grows(c, Next(c, step))
  {
    hide HistoryOk, MessageOk, ServerOk;
    InvLogs(c);
    var s, a := c.servers[step.s], step.m.args;
    assert ServerOk(c, s) && step.m == VoteRequest(a);
    if HandleVote(s, a, step.recent).1.granted && (a.term, s.id) !in c.h.ballots {
      FirstVoteStep(c, s, a, step.recent);
    } else {
      OldVoteStep(c, s, a, step.recent);
    }
  }
}
