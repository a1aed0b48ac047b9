/**
 Log repair (section 5.3): a stable leader probing a follower with decreasing nextIndex finds the
 point where their logs part within nextIndex rounds, and from then on the follower holds the
 leader's whole log.
 */
module RaftRepair {
  import opened Bytes
  import opened RaftLog
  import opened RaftState
  import opened RaftInvariant
  import opened RaftDelivery

  /** A leader and a follower that will listen to it, neither compacted. */
  ghost predicate Stable(l: ServerState, f: ServerState, peer: NodeId) {
    && l.role == Leader && Rooted(l.log) && Rooted(f.log) && Matching(f.log, l.log)
    && !f.stopped && f.term <= l.term
    && NextFor(l, peer) <= |l.log| && Get(l.matchIndex, peer) < |l.log|
  }

  /** One round of replicateTo with its reply: build, deliver, answer. */
  function Probe(l: ServerState, f: ServerState, peer: NodeId, saved: bool): (ServerState, ServerState)
    requires Contiguous(l.log) && Contiguous(f.log)
  {
    match BuildAppend(l, peer)
    case None => (l, f)
    case Some(a) =>
      var (f', r) := HandleAppend(f, a, saved);
      (HandleAppendReply(l, peer, a.term, a.prevIndex + |a.entries|, r, saved), f')
  }

  /** n rounds of probing. */
  ghost function Probes(l: ServerState, f: ServerState, peer: NodeId, saved: bool, n: nat): (r: (ServerState, ServerState))
    requires Stable(l, f, peer)
    ensures Stable(r.0, r.1, peer) && r.0.log == l.log
    decreases n
  {
    if n == 0 then (l, f)
    else
      ProbeStep(l, f, peer, saved);
      var (l', f') := Probe(l, f, peer, saved);
      Probes(l', f', peer, saved, n - 1)
  }

  /** The follower holds the leader's log through its last index, and the leader knows it. */
  ghost predicate Repaired(l: ServerState, f: ServerState, peer: NodeId)
    requires |l.log| > 0
  {
    Agree(f.log, l.log, |l.log| - 1) && Get(l.matchIndex, peer) == |l.log| - 1
  }

  /** Do the logs agree at the entry before nextIndex? */
  ghost predicate ProbeMatches(l: ServerState, f: ServerState, peer: NodeId)
    requires Rooted(l.log) && Rooted(f.log) && NextFor(l, peer) <= |l.log|
  {
    var prev := NextFor(l, peer) - 1;
    prev < |f.log| && f.log[prev].term == l.log[prev].term
  }

  lemma OverwriteMatches(mine: seq<LogEntry>, leader: seq<LogEntry>, last: nat)
    requires Rooted(mine) && Rooted(leader) && Matching(mine, leader) && last < |leader|
    ensures Rooted(Overwrite(mine, leader, last)) && Matching(Overwrite(mine, leader, last), leader)
    ensures Agree(Overwrite(mine, leader, last), leader, last)
  {
    var r := Overwrite(mine, leader, last);
    assert MatchAt(mine, leader, last);
    if r != mine {
      forall i: nat
        ensures MatchAt(r, leader, i)
      {
        if i < |r| {
          assert r[..i + 1] == leader[..i + 1];
        }
      }
    }
  }

  lemma AdvanceShape(s: ServerState, saved: bool)
    requires Contiguous(s.log)
    ensures
      var r := AdvanceCommit(s, saved);
      && r.log == s.log && r.role == s.role && r.term == s.term && r.nextIndex == s.nextIndex
      && r.matchIndex == s.matchIndex
      && r.id == s.id && r.peers == s.peers
  {
    hide AdvanceCommit;
    CarefulAdvance(s, saved);
  }

  /** The follower's half of a round, whether or not it accepts. */
  lemma FollowerAnswers(f: ServerState, a: AppendArgs, leader: seq<LogEntry>, saved: bool)
    requires Rooted(leader) && Rooted(f.log) && Contiguous(f.log) && Matching(f.log, leader)
    requires !f.stopped && f.term <= a.term && a.prevIndex + |a.entries| < |leader|
    requires a.prevTerm == leader[a.prevIndex].term
      && a.entries == leader[a.prevIndex + 1..a.prevIndex + |a.entries| + 1]
    ensures
      var (f', r) := HandleAppend(f, a, saved);
      var matched := a.prevIndex < |f.log| && f.log[a.prevIndex].term == leader[a.prevIndex].term;
      && f'.term == a.term && !f'.stopped && r == AppendReply(a.term, matched)
      && f'.log == if matched then Overwrite(f.log, leader, a.prevIndex + |a.entries|) else f.log
  {
    hide Overwrite, Matching, HandleAppend, AppendFrom, MatchesPrev, Contiguous;
    RootedContiguous(f.log);
    AppendShape(f, a, saved);
    if MatchesPrev(f.log, a.prevIndex, a.prevTerm) {
      AppendFromClosedForm(f.log, leader, a.prevIndex, a.prevIndex + |a.entries|);
    }
  }

  /** One round: a matching probe repairs the follower, a failing one costs exactly one step of nextIndex. */
  lemma ProbeStep(l: ServerState, f: ServerState, peer: NodeId, saved: bool)
    requires Stable(l, f, peer)
    ensures
      var (l', f') := Probe(l, f, peer, saved);
      && Stable(l', f', peer) && l'.log == l.log
      && if ProbeMatches(l, f, peer) then Repaired(l', f', peer)
         else NextFor(l, peer) > 1 && NextFor(l', peer) == NextFor(l, peer) - 1 && f'.log == f.log
  {
    hide Overwrite, Matching, HandleAppend, HandleAppendReply, BuildAppend, MatchesPrev;
    BuiltFromNext(l, peer);
    var a := BuildAppend(l, peer).value;
    var last := |l.log| - 1;
    RootedContiguous(f.log);
    FollowerAnswers(f, a, l.log, saved);
    LeaderHears(l, peer, last, ProbeMatches(l, f, peer), saved);
    if ProbeMatches(l, f, peer) {
      OverwriteMatches(f.log, l.log, last);
    }
  }

  /** The request of an uncompacted leader carries everything from nextIndex on. */
  lemma BuiltFromNext(l: ServerState, peer: NodeId)
    requires l.role == Leader && Rooted(l.log) && Contiguous(l.log) && NextFor(l, peer) <= |l.log|
    ensures
      var next, last := NextFor(l, peer), |l.log| - 1;
      BuildAppend(l, peer) == Some(AppendArgs(l.term, l.id, next - 1, l.log[next - 1].term, l.log[next..last + 1], l.commitIndex))
  {
    var next, last := NextFor(l, peer), |l.log| - 1;
    SliceToEnd(l.log, next);
    assert next > last ==> l.log[next..last + 1] == [];
  }

  /** The leader's half of a round. */
  lemma LeaderHears(l: ServerState, peer: NodeId, sent: nat, success: bool, saved: bool)
    requires Contiguous(l.log) && l.role == Leader && Get(l.matchIndex, peer) <= sent
    ensures
      var l' := HandleAppendReply(l, peer, l.term, sent, AppendReply(l.term, success), saved);
      && l'.role == Leader && l'.log == l.log && l'.term == l.term
      && (success ==> Get(l'.matchIndex, peer) == sent && (NextFor(l', peer) == sent + 1 || NextFor(l', peer) == NextFor(l, peer)))
      && (!success ==> l'.matchIndex == l.matchIndex && NextFor(l', peer) == Max(NextFor(l, peer) - 1, 1))
  {
    hide AdvanceCommit;
    var m := if sent > Get(l.matchIndex, peer)
             then l.(matchIndex := l.matchIndex[peer := sent], nextIndex := l.nextIndex[peer := sent + 1]) else l;
    AdvanceShape(m, saved);
  }

  /** Repair terminates: after nextIndex rounds the follower agrees with the leader through its last index. */
  lemma {:induction false} RepairConverges(l: ServerState, f: ServerState, peer: NodeId, saved: bool, n: nat)
    requires Stable(l, f, peer) && n >= NextFor(l, peer)
    ensures
      var (l', f') := Probes(l, f, peer, saved, n);
      Repaired(l', f', peer) && l'.log == l.log
    decreases n
  {
    hide Stable, Probe, Repaired, ProbeMatches;
    StableLogs(l, f, peer);
    ProbeStep(l, f, peer, saved);
    var (l', f') := Probe(l, f, peer, saved);
    if ProbeMatches(l, f, peer) {
      RepairedStays(l', f', peer, saved, n - 1);
    } else {
      RepairConverges(l', f', peer, saved, n - 1);
    }
  }

  lemma StableLogs(l: ServerState, f: ServerState, peer: NodeId)
    requires Stable(l, f, peer)
    ensures Contiguous(l.log) && Contiguous(f.log) && Rooted(l.log) && Rooted(f.log) && NextFor(l, peer) <= |l.log|
  {
  }

  lemma RepairedMatches(l: ServerState, f: ServerState, peer: NodeId)
    requires Stable(l, f, peer) && Repaired(l, f, peer)
    ensures ProbeMatches(l, f, peer)
  {
    var last, prev := |l.log| - 1, NextFor(l, peer) - 1;
    assert f.log[prev] == f.log[..last + 1][prev] == l.log[..last + 1][prev];
  }

  lemma {:induction false} RepairedStays(l: ServerState, f: ServerState, peer: NodeId, saved: bool, n: nat)
    requires Stable(l, f, peer) && Repaired(l, f, peer)
    ensures
      var (l', f') := Probes(l, f, peer, saved, n);
      Repaired(l', f', peer)
    decreases n
  {
    hide Stable, Probe, Repaired, ProbeMatches;
    StableLogs(l, f, peer);
    if n > 0 {
      RepairedMatches(l, f, peer);
      ProbeStep(l, f, peer, saved);
      var (l', f') := Probe(l, f, peer, saved);
      RepairedStays(l', f', peer, saved, n - 1);
    }
  }
}
