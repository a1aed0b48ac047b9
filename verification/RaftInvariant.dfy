/**
 The inductive invariant of the cluster, and the history relation that every step respects.

 The heart of it is Anchored: a log prefix that ends in an entry of term t is a prefix of the log
 built by the leader of term t.  Log Matching is immediate from it, and Leader Completeness follows
 from what each server's acknowledgements and ballots still hold (Retains).
 */
module RaftInvariant {
  import opened Bytes
  import opened RaftLog
  import opened RaftState
  import opened RaftCluster

  // ----- logs against the reigns that produced them -----

  ghost predicate AnchoredAt(reigns: map<nat, Reign>, log: seq<LogEntry>, i: nat)
    requires i < |log|
  {
    var t := log[i].term;
    t in reigns && i < |reigns[t].log| && log[..i + 1] == reigns[t].log[..i + 1]
  }

  ghost predicate Anchored(reigns: map<nat, Reign>, log: seq<LogEntry>) {
    && Rooted(log)
    && forall i :: 0 < i < |log| ==> AnchoredAt(reigns, log, i)
  }

  ghost predicate TermsAtMost(log: seq<LogEntry>, t: int) {
    forall i :: 0 <= i < |log| ==> log[i].term <= t
  }

  ghost predicate TermsSorted(log: seq<LogEntry>) {
    forall i, j :: 0 <= i <= j < |log| ==> log[i].term <= log[j].term
  }

  ghost predicate Agree(a: seq<LogEntry>, b: seq<LogEntry>, k: nat) {
    k < |a| && k < |b| && a[..k + 1] == b[..k + 1]
  }

  ghost predicate Conflict(a: seq<LogEntry>, b: seq<LogEntry>, k: nat) {
    exists j: nat :: j <= k && j < |a| && j < |b| && a[j] != b[j]
  }

  // ----- acknowledgements and commitment -----

  ghost predicate AnswerFrom(m: Message, v: NodeId, t: nat) {
    m.AppendAnswer? && m.from == v && m.reqTerm == t && m.appendReply.success
  }

  /** v once held the first k entries of the leader of t: it said so, or it was that leader. */
  ghost predicate Acked(reigns: map<nat, Reign>, net: set<Message>, v: NodeId, t: nat, k: nat) {
    && t in reigns && k < |reigns[t].log|
    && (reigns[t].leader == v || exists m :: m in net && AnswerFrom(m, v, t) && k <= m.sent)
  }

  /** Some leader of a term in (t, bound) has written something else within the first k entries. */
  ghost predicate Overwritten(reigns: map<nat, Reign>, t: nat, k: nat, bound: nat) {
    exists u :: t < u < bound && u in reigns && t in reigns && Conflict(reigns[u].log, reigns[t].log, k)
  }

  /** What v acknowledged is still in the log, unless a leader in between overwrote it. */
  ghost predicate Retains(reigns: map<nat, Reign>, net: set<Message>, v: NodeId, log: seq<LogEntry>, bound: nat) {
    forall t: nat, k: nat :: t < bound && Acked(reigns, net, v, t, k) ==>
      Agree(log, reigns[t].log, k) || Overwritten(reigns, t, k, bound)
  }

  ghost predicate Quorum(members: seq<NodeId>, q: set<NodeId>) {
    && (forall v :: v in q ==> v in members)
    && |q| >= Majority(|members|)
  }

  ghost predicate AckedBy(reigns: map<nat, Reign>, net: set<Message>, q: set<NodeId>, t: nat, n: nat) {
    forall v :: v in q ==> Acked(reigns, net, v, t, n)
  }

  /** The commit rule: an entry of the leader's own term, acknowledged by a majority. */
  ghost predicate CommitPoint(c: Cluster, t: nat, n: nat) {
    && t in c.h.reigns && 0 < n < |c.h.reigns[t].log|
    && c.h.reigns[t].log[n].term == t
    && exists q :: Quorum(c.members, q) && AckedBy(c.h.reigns, c.net, q, t, n)
  }

  /** The first k entries of log are covered by a commit point of a term no later than bound. */
  ghost predicate CommittedTo(c: Cluster, log: seq<LogEntry>, k: nat, bound: nat) {
    k == 0 || exists t: nat, n: nat :: t <= bound && k <= n && CommitPoint(c, t, n) && Agree(log, c.h.reigns[t].log, k)
  }

  // ----- the invariant -----

  ghost predicate ReignOk(members: seq<NodeId>, h: History, t: nat)
    requires t in h.reigns
  {
    var r := h.reigns[t];
    && 0 < t
    && Anchored(h.reigns, r.log) && TermsSorted(r.log) && TermsAtMost(r.log, t)
    && Quorum(members, r.electors)
    && (forall v :: v in r.electors ==> (t, v) in h.ballots && h.ballots[(t, v)].candidate == r.leader)
    && (t, r.leader) in h.ballots
    && h.ballots[(t, r.leader)].log <= r.log
    && |r.log| > 0 && LastTerm(r.log) == t
  }

  ghost predicate BallotOk(h: History, t: nat, v: NodeId)
    requires (t, v) in h.ballots
  {
    var b := h.ballots[(t, v)];
    && 0 < t
    && Anchored(h.reigns, b.log)
    && (t, b.candidate) in h.ballots
    && var cand := h.ballots[(t, b.candidate)];
       && cand.candidate == b.candidate
       && Anchored(h.reigns, cand.log) && TermsAtMost(cand.log, t - 1)
       && UpToDate(|cand.log| - 1, LastTerm(cand.log), b.log)
  }

  /** Ballots that count: any ballot before its term has a leader, and the electors' ever after. */
  ghost predicate Counts(h: History, t: nat, v: NodeId) {
    t in h.reigns ==> v in h.reigns[t].electors
  }

  ghost predicate HistoryOk(members: seq<NodeId>, h: History, net: set<Message>) {
    && (forall t :: t in h.reigns ==> ReignOk(members, h, t))
    && (forall t, v :: (t, v) in h.ballots ==> BallotOk(h, t, v))
    && (forall t, v :: (t, v) in h.ballots && Counts(h, t, v) ==> Retains(h.reigns, net, v, h.ballots[(t, v)].log, t))
  }

  /** A stretch of the leader's log, claiming no commit that it does not cover and that was not made. */
  ghost predicate Vouched(c: Cluster, a: AppendArgs) {
    && a.term in c.h.reigns
    && var k := c.h.reigns[a.term].log;
       && a.prevIndex + |a.entries| < |k|
       && a.entries == k[a.prevIndex + 1..a.prevIndex + |a.entries| + 1]
       && a.prevTerm == k[a.prevIndex].term
       && a.leaderCommit <= a.prevIndex + |a.entries|
       && CommittedTo(c, k, a.leaderCommit, a.term)
  }

  /** A request reaches to the end of its leader's log, which is an entry of the leader's own term. */
  ghost predicate OwnTerm(c: Cluster, a: AppendArgs)
    requires Vouched(c, a)
  {
    c.h.reigns[a.term].log[a.prevIndex + |a.entries|].term == a.term
  }

  ghost predicate MessageOk(c: Cluster, m: Message) {
    match m
    case VoteRequest(a) =>
      && (a.term, a.candidate) in c.h.ballots
      && var b := c.h.ballots[(a.term, a.candidate)];
         b.candidate == a.candidate && |b.log| > 0 && a.lastIndex == |b.log| - 1 && a.lastTerm == LastTerm(b.log)
    case VoteAnswer(from, to, reqTerm, r) =>
      r.granted ==> from in c.members && (reqTerm, from) in c.h.ballots && c.h.ballots[(reqTerm, from)].candidate == to
    case AppendRequest(a) => Vouched(c, a) && OwnTerm(c, a)
    case AppendAnswer(from, to, reqTerm, sent, r) =>
      r.success ==> from in c.members && reqTerm in c.h.reigns && sent < |c.h.reigns[reqTerm].log|
    case OfferRequest(a) => Vouched(c, a) && IsOffer(a)
    case OfferAnswer(_, _, reqTerm, sent, _) =>
      && reqTerm in c.h.reigns && sent < |c.h.reigns[reqTerm].log|
      && CommittedTo(c, c.h.reigns[reqTerm].log, sent, reqTerm)
  }

  /** Memory and disk agree on Figure 2's persistent state. */
  ghost predicate Synced(s: ServerState) {
    match s.disk.state
    case None => s.term == 0 && s.votedFor == None && s.log == [SENTINEL]
    case Some(d) => d == Durable(s.term, s.votedFor, s.log)
  }

  /** A server's term bounds everything it has ever promised. */
  ghost predicate TermBounds(c: Cluster, s: ServerState) {
    && TermsAtMost(s.log, s.term)
    && (forall t :: (t, s.id) in c.h.ballots ==> t <= s.term)
    && (forall t :: t in c.h.reigns && c.h.reigns[t].leader == s.id ==> t <= s.term)
    && (forall m, t: nat :: m in c.net && AnswerFrom(m, s.id, t) ==> t <= s.term)
  }

  ghost predicate VoteOk(c: Cluster, s: ServerState) {
    match s.votedFor
    case None => (s.term, s.id) !in c.h.ballots
    case Some(v) => (s.term, s.id) in c.h.ballots && c.h.ballots[(s.term, s.id)].candidate == v
  }

  ghost predicate CandidateOk(c: Cluster, s: ServerState) {
    s.role == Candidate ==>
      && (s.term, s.id) in c.h.ballots && c.h.ballots[(s.term, s.id)].candidate == s.id
      && (s.term !in c.h.reigns ==> c.h.ballots[(s.term, s.id)].log == s.log && TermsAtMost(s.log, s.term - 1))
      && (s.term in c.h.reigns ==> c.h.reigns[s.term].leader != s.id)
      && (forall v :: v in s.votes ==>
            v in c.members && (s.term, v) in c.h.ballots && c.h.ballots[(s.term, v)].candidate == s.id)
  }

  ghost predicate LeaderOk(c: Cluster, s: ServerState) {
    s.role == Leader ==>
      && s.term in c.h.reigns && c.h.reigns[s.term].leader == s.id && c.h.reigns[s.term].log == s.log
      && (forall p :: p in c.members ==> MatchOk(c, s, p) && NextFor(s, p) <= |s.log|)
  }

  /** What a leader counts a peer for, the peer has acknowledged, or it is committed anyhow. */
  ghost predicate MatchOk(c: Cluster, s: ServerState, p: NodeId) {
    var k := Get(s.matchIndex, p);
    k > 0 ==> Acked(c.h.reigns, c.net, p, s.term, k) || CommittedTo(c, s.log, k, s.term)
  }

  ghost predicate AppliedOk(c: Cluster, s: ServerState) {
    && Rooted(s.log)
    && s.disk.marker <= s.lastApplied <= s.commitIndex < |s.log|
    && CommittedTo(c, s.log, s.commitIndex, s.term)
    && s.fed == Commands(s.log, 0, s.lastApplied)
  }

  ghost predicate ServerOk(c: Cluster, s: ServerState) {
    && s.id in c.members && s.peers == c.members && s.disk.snapshot == None
    && Synced(s)
    && Anchored(c.h.reigns, s.log)
    && TermBounds(c, s)
    && VoteOk(c, s)
    && CandidateOk(c, s)
    && LeaderOk(c, s)
    && Retains(c.h.reigns, c.net, s.id, s.log, s.term + 1)
    && AppliedOk(c, s)
  }

  // ----- servers that have heard of a term and not written it down -----

  function DiskTerm(s: ServerState): nat {
    match s.disk.state case None => 0 case Some(d) => d.term
  }

  function DiskVote(s: ServerState): Option<NodeId> {
    match s.disk.state case None => None case Some(d) => d.votedFor
  }

  /** The server with the term and vote it would come back with. */
  function Settled(s: ServerState): ServerState { s.(term := DiskTerm(s), votedFor := DiskVote(s)) }

  /** Memory is what is on disk, or a later term in which the server has neither voted nor stood. */
  ghost predicate Hearing(s: ServerState) {
    Settled(s) == s || (DiskTerm(s) < s.term && s.votedFor == None && s.role == Follower)
  }

  /** All that a server has promised, it has promised on disk. */
  ghost predicate Sound(c: Cluster, s: ServerState) { Hearing(s) && ServerOk(c, Settled(s)) }

  ghost predicate MessagesOk(c: Cluster) {
    forall m :: m in c.net ==> MessageOk(c, m)
  }

  ghost predicate ServersOk(c: Cluster) {
    forall p :: p in c.servers ==> c.servers[p].id == p && Sound(c, c.servers[p])
  }

  ghost predicate Inv(c: Cluster) {
    && Distinct(c.members)
    && (forall p :: p in c.servers <==> p in c.members)
    && HistoryOk(c.members, c.h, c.net)
    && MessagesOk(c)
    && ServersOk(c)
  }

  // ----- how the past may grow -----

  /** History and network only grow; a leader's log is only appended to. */
  ghost predicate Grows(c: Cluster, d: Cluster) {
    && d.members == c.members
    && c.net <= d.net
    && (forall b :: b in c.h.ballots ==> b in d.h.ballots && d.h.ballots[b] == c.h.ballots[b])
    && (forall t :: t in c.h.reigns ==>
          && t in d.h.reigns
          && d.h.reigns[t].leader == c.h.reigns[t].leader
          && d.h.reigns[t].electors == c.h.reigns[t].electors
          && c.h.reigns[t].log <= d.h.reigns[t].log)
  }

  lemma GrowsTransitive(a: Cluster, b: Cluster, c: Cluster)
    requires Grows(a, b) && Grows(b, c)
    ensures Grows(a, c)
  {
    forall t | t in a.h.reigns
      ensures t in c.h.reigns && a.h.reigns[t].log <= c.h.reigns[t].log
    {
      assert a.h.reigns[t].log <= b.h.reigns[t].log && b.h.reigns[t].log <= c.h.reigns[t].log;
    }
  }
}
