/**
 A Raft cluster of fixed membership as a step protocol.

 Messages are never removed from the network and may be delivered any number of times in any
 order, so loss, duplication and reordering are all runs of this protocol.  A server may campaign
 in any role, stop, or crash and restart from its disk at any moment.  Servers here keep their whole
 log; offers carry a committed prefix entry by entry where the source sends a snapshot, and
 RaftCompacting.dfy relates the two.

 The history component is auxiliary: no step reads it.  It remembers every ballot cast (with the
 voter's log at that moment) and, per term, who reigned, who elected them and the log they built.
 */
module RaftCluster {
  import opened Bytes
  import opened RaftLog
  import opened RaftState

  datatype Message =
    | VoteRequest(args: VoteArgs)
    | VoteAnswer(from: NodeId, to: NodeId, reqTerm: nat, voteReply: VoteReply)
    | AppendRequest(append: AppendArgs)
    | AppendAnswer(from: NodeId, to: NodeId, reqTerm: nat, sent: nat, appendReply: AppendReply)
    | OfferRequest(offer: AppendArgs)
    | OfferAnswer(from: NodeId, to: NodeId, reqTerm: nat, sent: nat, term: nat)

  datatype Ballot = Ballot(candidate: NodeId, log: seq<LogEntry>)

  datatype Reign = Reign(leader: NodeId, electors: set<NodeId>, log: seq<LogEntry>)

  datatype History = History(ballots: map<(nat, NodeId), Ballot>, reigns: map<nat, Reign>)

  datatype Cluster = Cluster(members: seq<NodeId>, servers: map<NodeId, ServerState>, net: set<Message>, h: History)

  datatype Step =
    | Campaign(s: NodeId)
    | ReceiveVote(s: NodeId, m: Message, recent: bool)
    | ReceiveVoteAnswer(s: NodeId, m: Message)
    | Lead(s: NodeId, saved: bool)
    | Propose(s: NodeId, cmd: Option<Str>, saved: bool)
    | Replicate(s: NodeId, peer: NodeId)
    | ReceiveAppend(s: NodeId, m: Message, saved: bool)
    | ReceiveAppendAnswer(s: NodeId, m: Message, saved: bool)
    | Halt(s: NodeId)
    | CrashRestart(s: NodeId, upto: nat)
    | Offer(s: NodeId, upto: nat)
    | TakeOffer(s: NodeId, m: Message, decoded: bool)
    | OfferAnswered(s: NodeId, m: Message, saved: bool)
    | Flush(s: NodeId)

  /** The steps that stand in for snapshots and for what a compaction writes. */
  predicate Offering(step: Step) { step.Offer? || step.TakeOffer? || step.OfferAnswered? || step.Flush? }

  ghost predicate Distinct(members: seq<NodeId>) {
    forall i, j :: 0 <= i < j < |members| ==> members[i] != members[j]
  }

  function Initial(members: seq<NodeId>): Cluster {
    Cluster(members,
            map p | p in members :: NewServer(p, members, Disk(None, 0, None)),
            {},
            History(map[], map[]))
  }

  /** The logs every handler needs to be able to run at all. */
  ghost predicate LogsWellFormed(c: Cluster) {
    forall p :: p in c.servers ==>
      && Contiguous(c.servers[p].log)
      && (c.servers[p].disk.state.Some? ==> Contiguous(c.servers[p].disk.state.value.log))
  }

  ghost predicate Enabled(c: Cluster, step: Step) {
    && step.s in c.servers
    && var me := c.servers[step.s];
       match step
       case Campaign(_) => true
       case ReceiveVote(_, m, _) => m in c.net && m.VoteRequest?
       case ReceiveVoteAnswer(_, m) => m in c.net && m.VoteAnswer? && m.to == step.s
       case Lead(_, _) => CanLead(me)
       case Propose(_, _, _) => true
       case Replicate(_, peer) => peer in c.servers
       case ReceiveAppend(_, m, _) => m in c.net && m.AppendRequest?
       case ReceiveAppendAnswer(_, m, _) => m in c.net && m.AppendAnswer? && m.to == step.s
       case Halt(_) => true
       case CrashRestart(_, upto) => me.disk.marker <= upto <= me.lastApplied
       case Offer(_, upto) => me.role == Leader && upto <= me.commitIndex && upto < |me.log|
       case TakeOffer(_, m, _) => m in c.net && m.OfferRequest?
       case OfferAnswered(_, m, _) => m in c.net && m.OfferAnswer? && m.to == step.s
       case Flush(_) => true
  }

  function Update(c: Cluster, me: ServerState, sent: set<Message>, h: History): Cluster {
    c.(servers := c.servers[me.id := me], net := c.net + sent, h := h)
  }

  /** A ballot is remembered as first cast: a repeated grant of the same vote is not a new ballot. */
  function Cast(h: History, term: nat, voter: NodeId, b: Ballot): History {
    if (term, voter) in h.ballots then h else h.(ballots := h.ballots[(term, voter) := b])
  }

  function Crown(h: History, term: nat, r: Reign): History {
    h.(reigns := h.reigns[term := r])
  }

  /**
   A disk that accounts for the machine through upto: the applied marker always does so through itself,
   and a snapshot may do so further.
   */
  function Marked(s: ServerState, upto: nat): ServerState {
    s.(disk := s.disk.(marker := upto))
  }

  /** The cluster after a step.  Only me changes; the rest of the cluster sees new messages. */
  function Next(c: Cluster, step: Step): Cluster
    requires LogsWellFormed(c) && Enabled(c, step)
  {
    var me := c.servers[step.s];
    match step
    case Campaign(_) =>
      var me' := StartElection(me);
      Update(c, me', {VoteRequest(CampaignArgs(me'))}, Cast(c.h, me'.term, me.id, Ballot(me.id, me.log)))
    case ReceiveVote(_, m, recent) =>
      var (me', r) := HandleVote(me, m.args, recent);
      Update(c, me', {VoteAnswer(me.id, m.args.candidate, m.args.term, r)},
             if r.granted then Cast(c.h, m.args.term, me.id, Ballot(m.args.candidate, me.log)) else c.h)
    case ReceiveVoteAnswer(_, m) =>
      Update(c, HandleVoteReply(me, m.from, m.reqTerm, m.voteReply), {}, c.h)
    case Lead(_, saved) =>
      var me' := BecomeLeader(me, saved);
      Update(c, me', {}, Crown(c.h, me.term, Reign(me.id, me.votes, me'.log)))
    case Propose(_, cmd, saved) =>
      var me' := Submit(me, cmd, saved);
      Update(c, me', {}, if me'.log != me.log && me.term in c.h.reigns
                         then Crown(c.h, me.term, c.h.reigns[me.term].(log := me'.log)) else c.h)
    case Replicate(_, peer) =>
      Update(c, me, match BuildAppend(me, peer) case None => {} case Some(a) => {AppendRequest(a)}, c.h)
    case ReceiveAppend(_, m, saved) =>
      var (me', r) := HandleAppend(me, m.append, saved);
      Update(c, me', {AppendAnswer(me.id, m.append.leader, m.append.term, m.append.prevIndex + |m.append.entries|, r)}, c.h)
    case ReceiveAppendAnswer(_, m, saved) =>
      Update(c, HandleAppendReply(me, m.from, m.reqTerm, m.sent, m.appendReply, saved), {}, c.h)
    case Halt(_) => Update(c, me.(stopped := true), {}, c.h)
    case CrashRestart(_, upto) => Update(c, Restart(Marked(me, upto)), {}, c.h)
    case Offer(_, upto) => Update(c, me, {OfferRequest(BuildOffer(me, upto))}, c.h)
    case TakeOffer(_, m, decoded) =>
      var (me', r) := HandleOffer(me, m.offer, decoded);
      Update(c, me', {OfferAnswer(me.id, m.offer.leader, m.offer.term, |m.offer.entries|, r)}, c.h)
    case OfferAnswered(_, m, saved) => Update(c, HandleInstallReply(me, m.from, m.reqTerm, m.sent, m.term, saved), {}, c.h)
    case Flush(_) => Update(c, Persist(me), {}, c.h)
  }

  /** What a step does to its server, and what it sends. */
  ghost function After(s: ServerState, step: Step): ServerState
    requires Contiguous(s.log) && !step.CrashRestart? && WellAddressed(step)
  {
    match step
    case Campaign(_) => StartElection(s)
    case ReceiveVote(_, m, recent) => HandleVote(s, m.args, recent).0
    case ReceiveVoteAnswer(_, m) => HandleVoteReply(s, m.from, m.reqTerm, m.voteReply)
    case Lead(_, saved) => BecomeLeader(s, saved)
    case Propose(_, cmd, saved) => Submit(s, cmd, saved)
    case Replicate(_, _) => s
    case ReceiveAppend(_, m, saved) => HandleAppend(s, m.append, saved).0
    case ReceiveAppendAnswer(_, m, saved) => HandleAppendReply(s, m.from, m.reqTerm, m.sent, m.appendReply, saved)
    case Halt(_) => s.(stopped := true)
    case Offer(_, _) => s
    case TakeOffer(_, m, decoded) => HandleOffer(s, m.offer, decoded).0
    case OfferAnswered(_, m, saved) => HandleInstallReply(s, m.from, m.reqTerm, m.sent, m.term, saved)
    case Flush(_) => Persist(s)
  }

  ghost predicate WellAddressed(step: Step) {
    && (step.ReceiveVote? ==> step.m.VoteRequest?) && (step.ReceiveVoteAnswer? ==> step.m.VoteAnswer?)
    && (step.ReceiveAppend? ==> step.m.AppendRequest?) && (step.ReceiveAppendAnswer? ==> step.m.AppendAnswer?)
    && (step.TakeOffer? ==> step.m.OfferRequest?) && (step.OfferAnswered? ==> step.m.OfferAnswer?)
  }

  ghost function Sent(s: ServerState, step: Step): set<Message>
    requires Contiguous(s.log) && WellAddressed(step) && (step.Offer? ==> step.upto < |s.log|)
  {
    match step
    case Campaign(_) => {VoteRequest(CampaignArgs(StartElection(s)))}
    case ReceiveVote(_, m, recent) => {VoteAnswer(s.id, m.args.candidate, m.args.term, HandleVote(s, m.args, recent).1)}
    case Replicate(_, peer) => (match BuildAppend(s, peer) case None => {} case Some(a) => {AppendRequest(a)})
    case ReceiveAppend(_, m, saved) =>
      {AppendAnswer(s.id, m.append.leader, m.append.term, m.append.prevIndex + |m.append.entries|, HandleAppend(s, m.append, saved).1)}
    case Offer(_, upto) => {OfferRequest(BuildOffer(s, upto))}
    case TakeOffer(_, m, decoded) =>
      {OfferAnswer(s.id, m.offer.leader, m.offer.term, |m.offer.entries|, HandleOffer(s, m.offer, decoded).1)}
    case _ => {}
  }

  lemma NextShape(t: Cluster, step: Step)
    requires LogsWellFormed(t) && Enabled(t, step) && !step.CrashRestart?
    ensures WellAddressed(step)
    ensures
      var s, n := t.servers[step.s], Next(t, step);
      && n.servers == t.servers[After(s, step).id := After(s, step)] && n.net == t.net + Sent(s, step)
      && n.members == t.members
  {
    hide HandleAppend, HandleVote, StartElection, HandleVoteReply, BecomeLeader, Submit, HandleAppendReply, BuildAppend, CampaignArgs,
         BuildOffer, HandleOffer, HandleInstallReply, Contiguous;
  }
}
