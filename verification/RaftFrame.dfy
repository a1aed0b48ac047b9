/** What survives when history and network grow: facts about the past stay facts. */
module RaftFrame {
  import opened RaftLog
  import opened RaftState
  import opened RaftCluster
  import opened RaftInvariant

  lemma AnchoredGrows(c: Cluster, d: Cluster, log: seq<LogEntry>)
    requires Grows(c, d) && Anchored(c.h.reigns, log)
    ensures Anchored(d.h.reigns, log)
  {
    forall i | 0 < i < |log|
      ensures AnchoredAt(d.h.reigns, log, i)
    {
      assert AnchoredAt(c.h.reigns, log, i);
      var t := log[i].term;
      assert c.h.reigns[t].log[..i + 1] == d.h.reigns[t].log[..i + 1];
    }
  }

  lemma AgreeGrows(log: seq<LogEntry>, a: seq<LogEntry>, b: seq<LogEntry>, k: nat)
    requires Agree(log, a, k) && a <= b
    ensures Agree(log, b, k)
  {
    assert a[..k + 1] == b[..k + 1];
  }

  lemma AckedGrows(c: Cluster, d: Cluster, v: NodeId, t: nat, k: nat)
    requires Grows(c, d) && Acked(c.h.reigns, c.net, v, t, k)
    ensures Acked(d.h.reigns, d.net, v, t, k)
  {
  }

  lemma CommitPointGrows(c: Cluster, d: Cluster, t: nat, n: nat)
    requires Grows(c, d) && CommitPoint(c, t, n)
    ensures CommitPoint(d, t, n)
  {
    var q :| Quorum(c.members, q) && AckedBy(c.h.reigns, c.net, q, t, n);
    forall v | v in q
      ensures Acked(d.h.reigns, d.net, v, t, n)
    {
      AckedGrows(c, d, v, t, n);
    }
    assert Quorum(d.members, q) && AckedBy(d.h.reigns, d.net, q, t, n);
  }

  lemma CommittedToGrows(c: Cluster, d: Cluster, log: seq<LogEntry>, k: nat, bound: nat)
    requires Grows(c, d) && CommittedTo(c, log, k, bound)
    ensures CommittedTo(d, log, k, bound)
  {
    if k > 0 {
      var t: nat, n: nat :| t <= bound && k <= n && CommitPoint(c, t, n) && Agree(log, c.h.reigns[t].log, k);
      CommitPointGrows(c, d, t, n);
      AgreeGrows(log, c.h.reigns[t].log, d.h.reigns[t].log, k);
    }
  }

  /** Only the log's first k entries matter to CommittedTo, and a later bound is weaker. */
  lemma CommittedToMoves(c: Cluster, a: seq<LogEntry>, b: seq<LogEntry>, k: nat, bound: nat, bound': nat)
    requires CommittedTo(c, a, k, bound) && bound <= bound' && Agree(a, b, k)
    ensures CommittedTo(c, b, k, bound')
  {
    if k > 0 {
      var t: nat, n: nat :| t <= bound && k <= n && CommitPoint(c, t, n) && Agree(a, c.h.reigns[t].log, k);
      assert Agree(b, c.h.reigns[t].log, k);
    }
  }

  lemma OverwrittenGrows(c: Cluster, d: Cluster, t: nat, k: nat, bound: nat, bound': nat)
    requires Grows(c, d) && Overwritten(c.h.reigns, t, k, bound) && bound <= bound'
    ensures Overwritten(d.h.reigns, t, k, bound')
  {
    var u: nat :| t < u < bound && u in c.h.reigns && Conflict(c.h.reigns[u].log, c.h.reigns[t].log, k);
    var j: nat :| j <= k && j < |c.h.reigns[u].log| && j < |c.h.reigns[t].log| && c.h.reigns[u].log[j] != c.h.reigns[t].log[j];
    assert d.h.reigns[u].log[j] != d.h.reigns[t].log[j];
    assert Conflict(d.h.reigns[u].log, d.h.reigns[t].log, k);
  }

  /** v makes no new promise between c and d: no ballot, no acknowledgement, no reign. */
  ghost predicate Quiet(c: Cluster, d: Cluster, v: NodeId) {
    && (forall t :: (t, v) in d.h.ballots ==> (t, v) in c.h.ballots)
    && (forall m, t: nat :: m in d.net && AnswerFrom(m, v, t) ==> m in c.net)
    && (forall t :: t in d.h.reigns && d.h.reigns[t].leader == v ==> t in c.h.reigns && d.h.reigns[t] == c.h.reigns[t])
  }

  lemma AckedQuiet(c: Cluster, d: Cluster, v: NodeId, t: nat, k: nat)
    requires Grows(c, d) && Quiet(c, d, v) && Acked(d.h.reigns, d.net, v, t, k)
    requires MessagesOk(c)
    ensures Acked(c.h.reigns, c.net, v, t, k)
  {
    if d.h.reigns[t].leader != v {
      var m :| m in d.net && AnswerFrom(m, v, t) && k <= m.sent;
      assert m in c.net && MessageOk(c, m);
    }
  }

  /** Whatever v has acknowledged in terms below bound by d, it had acknowledged by c. */
  ghost predicate NoNewAcks(c: Cluster, d: Cluster, v: NodeId, bound: nat) {
    forall t: nat, k: nat :: t < bound && Acked(d.h.reigns, d.net, v, t, k) ==> Acked(c.h.reigns, c.net, v, t, k)
  }

  lemma QuietNoNewAcks(c: Cluster, d: Cluster, v: NodeId, bound: nat)
    requires Grows(c, d) && Quiet(c, d, v)
    requires MessagesOk(c)
    ensures NoNewAcks(c, d, v, bound)
  {
    forall t: nat, k: nat | t < bound && Acked(d.h.reigns, d.net, v, t, k)
      ensures Acked(c.h.reigns, c.net, v, t, k)
    {
      AckedQuiet(c, d, v, t, k);
    }
  }

  lemma RetainsGrows(c: Cluster, d: Cluster, v: NodeId, log: seq<LogEntry>, bound: nat)
    requires Grows(c, d) && NoNewAcks(c, d, v, bound) && Retains(c.h.reigns, c.net, v, log, bound)
    ensures Retains(d.h.reigns, d.net, v, log, bound)
  {
    forall t: nat, k: nat | t < bound && Acked(d.h.reigns, d.net, v, t, k)
      ensures Agree(log, d.h.reigns[t].log, k) || Overwritten(d.h.reigns, t, k, bound)
    {
      assert Acked(c.h.reigns, c.net, v, t, k);
      if Agree(log, c.h.reigns[t].log, k) {
        AgreeGrows(log, c.h.reigns[t].log, d.h.reigns[t].log, k);
      } else {
        OverwrittenGrows(c, d, t, k, bound, bound);
      }
    }
  }

  /** What is committed of a leader's log stays committed as the log gets longer. */
  lemma ReignCommittedGrows(c: Cluster, d: Cluster, t: nat, k: nat)
    requires Grows(c, d) && t in c.h.reigns && k < |c.h.reigns[t].log| && CommittedTo(c, c.h.reigns[t].log, k, t)
    ensures CommittedTo(d, d.h.reigns[t].log, k, t)
  {
    var log, log' := c.h.reigns[t].log, d.h.reigns[t].log;
    CommittedToGrows(c, d, log, k, t);
    assert log <= log';
    assert Agree(log, log', k);
    CommittedToMoves(d, log, log', k, t, t);
  }

  lemma VouchedGrows(c: Cluster, d: Cluster, a: AppendArgs)
    requires Grows(c, d) && Vouched(c, a)
    ensures Vouched(d, a) && (OwnTerm(c, a) ==> OwnTerm(d, a))
  {
    var k, k' := c.h.reigns[a.term].log, d.h.reigns[a.term].log;
    assert k <= k';
    assert k[a.prevIndex + 1..a.prevIndex + |a.entries| + 1] == k'[a.prevIndex + 1..a.prevIndex + |a.entries| + 1];
    ReignCommittedGrows(c, d, a.term, a.leaderCommit);
  }

  lemma MessageOkGrows(c: Cluster, d: Cluster, m: Message)
    requires Grows(c, d) && MessageOk(c, m)
    ensures MessageOk(d, m)
  {
    hide Vouched, OwnTerm, CommittedTo;
    match m
    case AppendRequest(a) => VouchedGrows(c, d, a);
    case OfferRequest(a) => VouchedGrows(c, d, a);
    case OfferAnswer(_, _, reqTerm, sent, _) => ReignCommittedGrows(c, d, reqTerm, sent);
    case _ =>
  }

  lemma MatchOkGrows(c: Cluster, d: Cluster, s: ServerState, p: NodeId)
    requires Grows(c, d) && MatchOk(c, s, p)
    ensures MatchOk(d, s, p)
  {
    hide CommittedTo;
    var k := Get(s.matchIndex, p);
    if k > 0 {
      if Acked(c.h.reigns, c.net, p, s.term, k) {
        AckedGrows(c, d, p, s.term, k);
      } else {
        CommittedToGrows(c, d, s.log, k, s.term);
      }
    }
  }

  lemma BystanderLeader(c: Cluster, d: Cluster, s: ServerState)
    requires Grows(c, d) && Quiet(c, d, s.id) && LeaderOk(c, s)
    ensures LeaderOk(d, s)
  {
    hide MatchOk;
    if s.role == Leader {
      forall p | p in d.members
        ensures MatchOk(d, s, p)
      {
        MatchOkGrows(c, d, s, p);
      }
    }
  }

  /** A server that took no part in a step is as fine after it as before. */
  lemma BystanderOk(c: Cluster, d: Cluster, s: ServerState)
    requires Grows(c, d) && Quiet(c, d, s.id) && ServerOk(c, s)
    requires MessagesOk(c)
    ensures ServerOk(d, s)
  {
    AnchoredGrows(c, d, s.log);
    QuietNoNewAcks(c, d, s.id, s.term + 1);
    RetainsGrows(c, d, s.id, s.log, s.term + 1);
    BystanderLeader(c, d, s);
    CommittedToGrows(c, d, s.log, s.commitIndex, s.term);
    assert TermBounds(d, s) && VoteOk(d, s) && AppliedOk(d, s);
    assert CandidateOk(d, s);
  }

  lemma BystanderSound(c: Cluster, d: Cluster, s: ServerState)
    requires Grows(c, d) && Quiet(c, d, s.id) && Sound(c, s)
    requires MessagesOk(c)
    ensures Sound(d, s)
  {
    hide ServerOk, Grows, Quiet;
    BystanderOk(c, d, Settled(s));
  }
}
