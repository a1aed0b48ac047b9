/** The safety properties of Figure 3 of the extended Raft paper, for every state that satisfies the invariant. */
module RaftSafety {
  import opened RaftLog
  import opened RaftState
  import opened RaftCluster
  import opened RaftInvariant

  // ----- quorums -----

  lemma {:induction false} MembersSize(members: seq<NodeId>)
    ensures |set p | p in members| <= |members|
    decreases |members|
  {
    if members != [] {
      var k := |members| - 1;
      MembersSize(members[..k]);
      assert (set p | p in members) == (set p | p in members[..k]) + {members[k]};
    }
  }

  lemma SubsetSize<T>(a: set<T>, b: set<T>)
    requires a <= b
    ensures |a| <= |b|
  {
    assert b == a + (b - a);
  }

  /** Two majorities of one membership share a member. */
  lemma QuorumsMeet(members: seq<NodeId>, a: set<NodeId>, b: set<NodeId>) returns (v: NodeId)
    requires Quorum(members, a) && Quorum(members, b)
    ensures v in a && v in b && v in members
  {
    var all := set p | p in members;
    MembersSize(members);
    assert a <= all && b <= all;
    SubsetSize(a + b, all);
    assert |a * b| == |a| + |b| - |a + b|;
    v :| v in a * b;
  }

  // ----- Log Matching -----

  /** Log Matching for any two anchored logs: same index and term means the same history. */
  lemma AnchoredLogsMatch(reigns: map<nat, Reign>, a: seq<LogEntry>, b: seq<LogEntry>)
    requires Anchored(reigns, a) && Anchored(reigns, b)
    ensures Matching(a, b)
  {
    forall i: nat
      ensures MatchAt(a, b, i)
    {
      if i < |a| && i < |b| && a[i].term == b[i].term {
        if i == 0 {
          assert a[..1] == [SENTINEL] == b[..1];
        } else {
          assert AnchoredAt(reigns, a, i) && AnchoredAt(reigns, b, i);
        }
      }
    }
  }

  lemma AnchoredSorted(members: seq<NodeId>, h: History, net: set<Message>, log: seq<LogEntry>)
    requires HistoryOk(members, h, net) && Anchored(h.reigns, log)
    ensures TermsSorted(log)
  {
    forall i, j | 0 <= i <= j < |log|
      ensures log[i].term <= log[j].term
    {
      if j > 0 {
        assert AnchoredAt(h.reigns, log, j);
        var k := h.reigns[log[j].term].log;
        assert ReignOk(members, h, log[j].term);
        assert log[i] == log[..j + 1][i] == k[..j + 1][i] == k[i];
        assert log[j] == log[..j + 1][j] == k[..j + 1][j] == k[j];
      }
    }
  }

  // ----- Leader Completeness -----

  /** A log ending in a term later than t, whose leader agrees with term t through n, reaches past n. */
  lemma LaterTermKeeps(reigns: map<nat, Reign>, cand: seq<LogEntry>, base: seq<LogEntry>, t: nat, n: nat)
    requires Anchored(reigns, cand) && |cand| > 1 && LastTerm(cand) > t
    requires LastTerm(cand) in reigns && TermsSorted(reigns[LastTerm(cand)].log)
    requires n < |base| && base[n].term == t
    requires Agree(reigns[LastTerm(cand)].log, base, n)
    ensures Agree(cand, base, n)
  {
    var last := |cand| - 1;
    var k := reigns[LastTerm(cand)].log;
    assert AnchoredAt(reigns, cand, last);
    assert cand == cand[..last + 1] == k[..last + 1];
    assert k[n] == k[..n + 1][n] == base[..n + 1][n] == base[n];
    assert k[last] == k[..last + 1][last] == cand[last];
    assert cand[..n + 1] == k[..n + 1];
  }

  /** An up-to-date candidate whose voter agrees with term t through n agrees as well. */
  lemma UpToDateKeeps(members: seq<NodeId>, h: History, net: set<Message>,
                      cand: seq<LogEntry>, voter: seq<LogEntry>, t: nat, n: nat)
    requires HistoryOk(members, h, net) && Anchored(h.reigns, cand) && Anchored(h.reigns, voter)
    requires t in h.reigns && 0 < t && 0 < n < |h.reigns[t].log| && h.reigns[t].log[n].term == t
    requires Agree(voter, h.reigns[t].log, n)
    requires UpToDate(|cand| - 1, LastTerm(cand), voter)
    requires LastTerm(cand) > t && LastTerm(cand) in h.reigns ==>
      Agree(h.reigns[LastTerm(cand)].log, h.reigns[t].log, n)
    ensures Agree(cand, h.reigns[t].log, n)
  {
    AnchoredSorted(members, h, net, voter);
    var base, u := h.reigns[t].log, LastTerm(cand);
    assert voter[n] == voter[..n + 1][n] == base[..n + 1][n] == base[n];
    assert u >= LastTerm(voter) >= t;
    assert AnchoredAt(h.reigns, cand, |cand| - 1);
    if u == LastTerm(voter) {
      SameLastTerm(h.reigns, cand, voter);
      assert cand[..n + 1] == voter[..n + 1];
    } else {
      assert ReignOk(members, h, u);
      LaterTermKeeps(h.reigns, cand, base, t, n);
    }
  }

  /** Two anchored logs ending in the same term: the longer extends the shorter. */
  lemma SameLastTerm(reigns: map<nat, Reign>, long: seq<LogEntry>, short: seq<LogEntry>)
    requires Anchored(reigns, long) && Anchored(reigns, short)
    requires LastTerm(long) == LastTerm(short) && |long| >= |short| > 1
    ensures short <= long
  {
    assert AnchoredAt(reigns, long, |long| - 1) && AnchoredAt(reigns, short, |short| - 1);
    var k := reigns[LastTerm(long)].log;
    assert long == long[..|long|] == k[..|long|];
    assert short == short[..|short|] == k[..|short|];
  }

  lemma AgreeNoConflict(a: seq<LogEntry>, b: seq<LogEntry>, k: nat)
    requires Agree(a, b, k)
    ensures !Conflict(a, b, k)
  {
    forall j: nat | j <= k && j < |a| && j < |b|
      ensures a[j] == b[j]
    {
      assert a[j] == a[..k + 1][j] == b[..k + 1][j];
    }
  }

  /** A server that acknowledged the commit point and elected the later leader. */
  lemma Witness(c: Cluster, t: nat, n: nat, later: nat) returns (v: NodeId)
    requires HistoryOk(c.members, c.h, c.net) && CommitPoint(c, t, n) && t < later && later in c.h.reigns
    ensures ReignOk(c.members, c.h, later) && (later, v) in c.h.ballots && BallotOk(c.h, later, v)
    ensures c.h.ballots[(later, v)].candidate == c.h.reigns[later].leader
    ensures Agree(c.h.ballots[(later, v)].log, c.h.reigns[t].log, n) || Overwritten(c.h.reigns, t, n, later)
  {
    assert ReignOk(c.members, c.h, later);
    var q :| Quorum(c.members, q) && AckedBy(c.h.reigns, c.net, q, t, n);
    v := QuorumsMeet(c.members, q, c.h.reigns[later].electors);
    assert BallotOk(c.h, later, v) && Counts(c.h, later, v);
    assert Acked(c.h.reigns, c.net, v, t, n);
  }

  /**
   Leader Completeness (section 5.4): once an entry of term t is acknowledged by a majority, the
   leader of every later term holds the same entries through it, and held them when it campaigned.
   */
  lemma {:induction false} LeaderCompleteness(c: Cluster, t: nat, n: nat, later: nat)
    requires HistoryOk(c.members, c.h, c.net)
    requires CommitPoint(c, t, n)
    requires t < later && later in c.h.reigns
    ensures Agree(c.h.reigns[later].log, c.h.reigns[t].log, n)
    ensures ReignOk(c.members, c.h, later)
    ensures Agree(c.h.ballots[(later, c.h.reigns[later].leader)].log, c.h.reigns[t].log, n)
    decreases later
  {
    var r := c.h.reigns[later];
    var base := c.h.reigns[t].log;
    var v := Witness(c, t, n, later);
    hide HistoryOk, Quorum, AckedBy, Retains;
    var voter := c.h.ballots[(later, v)].log;
    var cand := c.h.ballots[(later, r.leader)].log;
    if Overwritten(c.h.reigns, t, n, later) {
      var u: nat :| t < u < later && u in c.h.reigns && Conflict(c.h.reigns[u].log, base, n);
      LeaderCompleteness(c, t, n, u);
      AgreeNoConflict(c.h.reigns[u].log, base, n);
      assert false;
    }
    assert Agree(voter, base, n);
    var u := LastTerm(cand);
    if u > t && u in c.h.reigns {
      LeaderCompleteness(c, t, n, u);
    }
    UpToDateKeeps(c.members, c.h, c.net, cand, voter, t, n);
    assert cand[..n + 1] == r.log[..n + 1];
  }
}
