/**
 Single-server membership changes (raft/membership.go, section 4.1 of Ongaro's dissertation): majorities of
 neighbouring configurations meet, and one leader's tenure only ever walks from neighbour to neighbour.
 */
module Membership {
  import opened Bytes
  import opened Parsing
  import opened SortedKeys
  import opened RaftLog
  import opened RaftState

  type Config = seq<NodeId>

  ghost function Members(c: Config): set<NodeId> { set x | x in c }

  ghost predicate NoDuplicates(c: Config) { forall i, j :: 0 <= i < j < |c| ==> c[i] != c[j] }

  // ----- configurations -----

  /** Insertion in byte order, as sort leaves it. */
  function Place(c: Config, id: NodeId): Config {
    if c == [] || Leq(id, c[0]) then [id] + c else [c[0]] + Place(c[1..], id)
  }

  function SortIds(c: Config): Config {
    if c == [] then [] else Place(SortIds(c[1..]), c[0])
  }

  function WithServer(c: Config, id: NodeId): Config {
    if id in c then c else SortIds(c + [id])
  }

  function WithoutServer(c: Config, id: NodeId): Config {
    if c == [] then []
    else if c[|c| - 1] == id then WithoutServer(c[..|c| - 1], id)
    else WithoutServer(c[..|c| - 1], id) + [c[|c| - 1]]
  }

  predicate DiffersByOne(c: Config, o: Config) {
    if |o| == |c| + 1 then forall i :: 0 <= i < |c| ==> c[i] in o
    else if |c| == |o| + 1 then forall i :: 0 <= i < |o| ==> o[i] in c
    else false
  }

  lemma {:induction false} PlaceMembers(c: Config, id: NodeId)
    ensures multiset(Place(c, id)) == multiset(c) + multiset{id}
  {
    if c != [] && !Leq(id, c[0]) {
      PlaceMembers(c[1..], id);
      assert c == [c[0]] + c[1..];
    }
  }

  lemma {:induction false} SortMembers(c: Config)
    ensures multiset(SortIds(c)) == multiset(c)
  {
    if c != [] {
      SortMembers(c[1..]);
      PlaceMembers(SortIds(c[1..]), c[0]);
      assert c == [c[0]] + c[1..];
    }
  }

  lemma NoDuplicatesCount(c: Config)
    ensures NoDuplicates(c) <==> forall x :: multiset(c)[x] <= 1
  {
    if !NoDuplicates(c) {
      var i, j :| 0 <= i < j < |c| && c[i] == c[j];
      assert c == c[..i] + [c[i]] + c[i + 1..j] + [c[j]] + c[j + 1..];
      assert multiset(c)[c[i]] >= 2;
    } else {
      forall x
        ensures multiset(c)[x] <= 1
      {
        CountOnce(c, x);
      }
    }
  }

  lemma {:induction false} CountOnce(c: Config, x: NodeId)
    requires NoDuplicates(c)
    ensures multiset(c)[x] <= 1 && (x !in c ==> multiset(c)[x] == 0)
    decreases |c|
  {
    if c != [] {
      var n := |c| - 1;
      assert c == c[..n] + [c[n]];
      CountOnce(c[..n], x);
    }
  }

  lemma {:induction false} Size(c: Config)
    requires NoDuplicates(c)
    ensures |Members(c)| == |c|
    decreases |c|
  {
    if c != [] {
      var n := |c| - 1;
      Size(c[..n]);
      assert c == c[..n] + [c[n]];
      assert Members(c) == Members(c[..n]) + {c[n]};
    }
  }

  /** For duplicate-free configurations, differsByOne says what it means: one server added, or one removed. */
  lemma DiffersExactly(c: Config, o: Config)
    requires NoDuplicates(c) && NoDuplicates(o)
    ensures DiffersByOne(c, o) <==> exists id ::
      (id !in c && Members(o) == Members(c) + {id}) || (id !in o && Members(c) == Members(o) + {id})
  {
    Size(c);
    Size(o);
    if DiffersByOne(c, o) {
      if |o| == |c| + 1 {
        OneExtra(c, o);
      } else {
        OneExtra(o, c);
      }
    } else {
      forall id
        ensures !(id !in c && Members(o) == Members(c) + {id}) && !(id !in o && Members(c) == Members(o) + {id})
      {
        NotOne(c, o, id);
        NotOne(o, c, id);
      }
    }
  }

  lemma OneExtra(small: Config, large: Config)
    requires NoDuplicates(small) && NoDuplicates(large) && |large| == |small| + 1 && forall i :: 0 <= i < |small| ==> small[i] in large
    ensures exists id :: id !in small && Members(large) == Members(small) + {id}
  {
    Size(small);
    Size(large);
    var extra := Members(large) - Members(small);
    assert Members(small) <= Members(large);
    assert |extra| == 1;
    var id :| id in extra;
    Singleton(extra, id);
    assert Members(large) == Members(small) + {id};
  }

  lemma Singleton(s: set<NodeId>, id: NodeId)
    requires |s| == 1 && id in s
    ensures s == {id}
  {
    assert |s - {id}| == 0;
    assert s - {id} == {};
  }

  lemma NotOne(c: Config, o: Config, id: NodeId)
    requires NoDuplicates(c) && NoDuplicates(o) && !DiffersByOne(c, o)
    ensures !(id !in c && Members(o) == Members(c) + {id})
    ensures !DiffersByOne(o, c)
  {
    Size(c);
    Size(o);
    assert forall i :: 0 <= i < |c| ==> c[i] in Members(c);
  }

  // ----- quorums -----

  ghost predicate QuorumOf(c: Config, q: set<NodeId>) { q <= Members(c) && |q| >= Majority(|c|) }

  /** Every majority of one meets every majority of the other. */
  lemma NeighbourQuorumsMeet(c: Config, o: Config, p: set<NodeId>, q: set<NodeId>)
    requires NoDuplicates(c) && NoDuplicates(o) && DiffersByOne(c, o) && QuorumOf(c, p) && QuorumOf(o, q)
    ensures p * q != {}
  {
    Size(c);
    Size(o);
    var large := if |o| == |c| + 1 then o else c;
    assert forall i :: 0 <= i < |c| && |o| == |c| + 1 ==> c[i] in Members(o);
    assert forall i :: 0 <= i < |o| && |c| == |o| + 1 ==> o[i] in Members(c);
    assert p + q <= Members(large);
    Subset(p + q, Members(large));
    assert |p + q| + |p * q| == |p| + |q|;
  }

  lemma Subset(a: set<NodeId>, b: set<NodeId>)
    requires a <= b
    ensures |a| <= |b|
  {
    assert b == a + (b - a);
  }

  /** Two servers at once would not do: Figure 10's step from three servers to five has disjoint majorities. */
  lemma TwoAtOnceSplits(a: NodeId, b: NodeId, c: NodeId, d: NodeId, e: NodeId)
    requires NoDuplicates([a, b, c, d, e])
    ensures NoDuplicates([a, b, c]) && QuorumOf([a, b, c], {a, b}) && QuorumOf([a, b, c, d, e], {c, d, e})
      && {a, b} * {c, d, e} == {}
  {
    var v := [a, b, c, d, e];
    assert v[0] != v[1] && v[0] != v[2] && v[0] != v[3] && v[0] != v[4] && v[1] != v[2] && v[1] != v[3] && v[1] != v[4];
    assert v[2] != v[3] && v[2] != v[4] && v[3] != v[4];
  }

  // ----- what AddServer and RemoveServer produce -----

  lemma AddedNeighbour(c: Config, id: NodeId)
    requires NoDuplicates(c) && id !in c
    ensures NoDuplicates(WithServer(c, id)) && DiffersByOne(c, WithServer(c, id))
      && Members(WithServer(c, id)) == Members(c) + {id}
  {
    var d := c + [id];
    var o := SortIds(d);
    SortMembers(d);
    NoDuplicatesCount(d);
    NoDuplicatesCount(o);
    SameLength(o, d);
    forall x
      ensures x in o <==> x in c || x == id
    {
      assert x in o <==> x in multiset(o);
      assert x in d <==> x in multiset(d);
    }
  }

  lemma SameLength(a: Config, b: Config)
    requires multiset(a) == multiset(b)
    ensures |a| == |b|
  {
    assert |multiset(a)| == |a| && |multiset(b)| == |b|;
  }

  lemma {:induction false} Removed(c: Config, id: NodeId)
    requires NoDuplicates(c)
    ensures NoDuplicates(WithoutServer(c, id)) && forall x :: x in WithoutServer(c, id) <==> x in c && x != id
    ensures |WithoutServer(c, id)| == if id in c then |c| - 1 else |c|
    decreases |c|
  {
    if c != [] {
      var n := |c| - 1;
      assert c == c[..n] + [c[n]] && c[n] !in c[..n];
      Removed(c[..n], id);
    }
  }

  lemma RemovedNeighbour(c: Config, id: NodeId)
    requires NoDuplicates(c) && id in c
    ensures NoDuplicates(WithoutServer(c, id)) && DiffersByOne(c, WithoutServer(c, id))
  {
    Removed(c, id);
    var o := WithoutServer(c, id);
    assert forall i :: 0 <= i < |o| ==> o[i] in o;
  }

  // ----- one leader's tenure -----

  datatype Change = Add(id: NodeId) | Remove(id: NodeId)

  datatype Refusal = Accepted | NotLeader | NotInConfiguration | InFlight | AlreadyThere | NotThere | LastServer | NotSingle | NotSaved

  function Proposed(c: Config, ch: Change): Config {
    match ch case Add(id) => WithServer(c, id) case Remove(id) => WithoutServer(c, id)
  }

  /** What changeConfiguration makes of a change, and AddServer and RemoveServer inside it. */
  function Verdict(s: Tenure, ch: Change): Refusal {
    if !s.leads then NotLeader
    else if s.id !in s.peers then NotInConfiguration
    else if s.changeIndex > s.commitIndex then InFlight
    else match ch
      case Add(id) =>
        if id in s.peers then AlreadyThere
        else if !DiffersByOne(s.peers, WithServer(s.peers, id)) then NotSingle else Accepted
      case Remove(id) =>
        if id !in s.peers then NotThere else if |s.peers| == 1 then LastServer
        else if !DiffersByOne(s.peers, WithoutServer(s.peers, id)) then NotSingle else Accepted
  }

  /** The part of a leader that membership touches; lastIndex counts the whole log. */
  datatype Tenure = Tenure(id: NodeId, leads: bool, peers: Config, lastIndex: nat, commitIndex: nat, changeIndex: nat,
                           configs: seq<(nat, Config)>)

  datatype Step = Reconfigure(change: Change) | Append | Commit(upto: nat)

  /** configs records every configuration of the tenure with the index of its entry. */
  function Next(s: Tenure, step: Step): Tenure {
    match step
    case Append => s.(lastIndex := s.lastIndex + 1)
    case Commit(n) => if s.commitIndex < n <= s.lastIndex then s.(commitIndex := n) else s
    case Reconfigure(ch) =>
      if Verdict(s, ch) != Accepted then s
      else
        var next := Proposed(s.peers, ch);
        s.(peers := next, lastIndex := s.lastIndex + 1, changeIndex := s.lastIndex + 1,
           configs := s.configs + [(s.lastIndex + 1, next)])
  }

  function Walk(s: Tenure, steps: seq<Step>): Tenure {
    if steps == [] then s else Next(Walk(s, steps[..|steps| - 1]), steps[|steps| - 1])
  }

  /** Every configuration is a neighbour of the one before, which was committed when it was appended. */
  ghost predicate Neighbourly(s: Tenure) {
    && |s.configs| > 0
    && s.configs[|s.configs| - 1] == (s.changeIndex, s.peers)
    && s.changeIndex <= s.lastIndex && s.commitIndex <= s.lastIndex
    && (forall i :: 0 <= i < |s.configs| ==> NoDuplicates(s.configs[i].1))
    && (forall i :: 0 <= i < |s.configs| - 1 ==>
          && DiffersByOne(s.configs[i].1, s.configs[i + 1].1)
          && s.configs[i].0 < s.configs[i + 1].0 && s.configs[i].0 <= s.commitIndex)
  }

  lemma NextNeighbourly(s: Tenure, step: Step)
    requires Neighbourly(s)
    ensures Neighbourly(Next(s, step))
  {
    hide DiffersByOne, NoDuplicates, WithServer, WithoutServer;
    if step.Reconfigure? && Verdict(s, step.change) == Accepted {
      assert NoDuplicates(s.peers);
      match step.change
      case Add(id) => AddedNeighbour(s.peers, id);
      case Remove(id) => RemovedNeighbour(s.peers, id);
    }
  }

  lemma {:induction false} WalkNeighbourly(s: Tenure, steps: seq<Step>)
    requires Neighbourly(s)
    ensures Neighbourly(Walk(s, steps))
    decreases |steps|
  {
    hide Neighbourly;
    if steps != [] {
      WalkNeighbourly(s, steps[..|steps| - 1]);
      NextNeighbourly(Walk(s, steps[..|steps| - 1]), steps[|steps| - 1]);
    }
  }

  /** Within a tenure: majorities of any two successive configurations meet, and at most the last is uncommitted. */
  lemma TenureSafe(s: Tenure, steps: seq<Step>, i: nat, p: set<NodeId>, q: set<NodeId>)
    requires Neighbourly(s)
    requires
      var cs := Walk(s, steps).configs;
      i + 1 < |cs| && QuorumOf(cs[i].1, p) && QuorumOf(cs[i + 1].1, q)
    ensures p * q != {} && Walk(s, steps).configs[i].0 <= Walk(s, steps).commitIndex
  {
    hide DiffersByOne, NoDuplicates, QuorumOf;
    WalkNeighbourly(s, steps);
    var cs := Walk(s, steps).configs;
    NeighbourQuorumsMeet(cs[i].1, cs[i + 1].1, p, q);
  }

  /** The single-server check never refuses what AddServer and RemoveServer build from a duplicate-free configuration. */
  lemma NeverNotSingle(s: Tenure, ch: Change)
    requires NoDuplicates(s.peers)
    ensures Verdict(s, ch) != NotSingle
  {
    hide DiffersByOne, NoDuplicates, WithServer, WithoutServer;
    match ch
    case Add(id) => if id !in s.peers { AddedNeighbour(s.peers, id); }
    case Remove(id) => if id in s.peers { RemovedNeighbour(s.peers, id); }
  }

  /**
   A change is accepted exactly by a leader within its configuration whose last change is committed, if it changes
   something and leaves someone.
   */
  lemma AcceptedExactly(s: Tenure, ch: Change)
    requires NoDuplicates(s.peers)
    ensures Verdict(s, ch) == Accepted <==>
      && s.leads && s.id in s.peers && s.changeIndex <= s.commitIndex
      && match ch
         case Add(id) => id !in s.peers
         case Remove(id) => id in s.peers && |s.peers| > 1
    ensures Verdict(s, ch) == Accepted ==>
      Members(Proposed(s.peers, ch)) ==
        match ch case Add(id) => Members(s.peers) + {id} case Remove(id) => Members(s.peers) - {id}
  {
    hide DiffersByOne, NoDuplicates, WithServer, WithoutServer;
    NeverNotSingle(s, ch);
    match ch
    case Add(id) => if id !in s.peers { AddedNeighbour(s.peers, id); }
    case Remove(id) => Removed(s.peers, id);
  }

  // ----- the configuration entry -----

  const CONFIG_PREFIX: Byte := 0xC0

  function EncodeConfig(c: Config): Str { [CONFIG_PREFIX] + PutU64(|c|) + Concat(c, PutStr) }

  function DecodeConfig(cmd: Str): Option<Config> {
    if cmd == [] || cmd[0] != CONFIG_PREFIX || |cmd| < 9 then None
    else
      var (n, d) :- GetU64(cmd[1..]);
      var (c, _) :- GetMany(n, d, GetStr, [], AddLast);
      Some(c)
  }

  lemma ConfigRoundTrip(c: Config)
    requires |c| < TWO_64 && forall i :: 0 <= i < |c| ==> |c[i]| < TWO_64
    ensures DecodeConfig(EncodeConfig(c)) == Some(c)
  {
    hide GetU64, PutU64, GetStr, PutStr, GetMany, Concat, FoldLeft, Reads;
    var body := Concat(c, PutStr);
    assert |PutU64(|c|)| == 8 by { WordSize(|c|); }
    assert EncodeConfig(c)[1..] == PutU64(|c|) + body;
    U64Then(|c|, body);
    forall i | 0 <= i < |c|
      ensures Reads(GetStr, PutStr(c[i]), c[i])
    {
      StrReads(c[i]);
    }
    ManyReads(c, PutStr, GetStr, [], AddLast, []);
    assert body + [] == body;
    AddLastFold([], c);
    assert [] + c == c;
  }

  lemma WordSize(n: nat)
    ensures |PutU64(n)| == 8
  {
  }

  // ----- the leader's own bookkeeping -----

  class Leader {
    const id: NodeId
    var leads: bool
    var term: nat
    var peers: Config
    var log: seq<LogEntry>
    var commitIndex: nat
    var changeIndex: nat
    var nextIndex: map<NodeId, nat>
    var matchIndex: map<NodeId, nat>
    /** The log as the state file has it. */
    var durable: seq<LogEntry>
    ghost var configs: seq<(nat, Config)>

    ghost predicate Valid()
      reads this
    {
      |log| > 0 && Contiguous(log)
    }

    ghost function View(): Tenure
      requires Valid()
      reads this
    {
      Tenure(id, leads, peers, LastIndex(log), commitIndex, changeIndex, configs)
    }

    constructor (id: NodeId, leads: bool, term: nat, peers: Config, log: seq<LogEntry>, changeIndex: nat)
      requires |log| > 0 && Contiguous(log)
      ensures Valid() && View() == Tenure(id, leads, peers, LastIndex(log), 0, changeIndex, [(changeIndex, peers)])
    {
      this.id, this.leads, this.term, this.peers, this.log, durable := id, leads, term, peers, log, log;
      commitIndex, this.changeIndex := 0, changeIndex;
      nextIndex, matchIndex := map[], map[];
      configs := [(changeIndex, peers)];
    }

    /** The leader tracks exactly the members of c: kept ones as they were, new ones from the end of the log. */
    method UseConfiguration(c: Config)
      requires Valid()
      modifies this`peers, this`nextIndex, this`matchIndex
      ensures peers == c
      ensures !leads ==> nextIndex == old(nextIndex) && matchIndex == old(matchIndex)
      ensures leads ==> nextIndex.Keys == Members(c) && Get(matchIndex, id) == LastIndex(log)
      ensures leads ==> forall p :: p in c ==> nextIndex[p] == if p in old(nextIndex) then old(nextIndex)[p] else LastIndex(log) + 1
      ensures leads ==> forall p :: p in c && p != id ==>
        Get(matchIndex, p) == if p in old(nextIndex) then Get(old(matchIndex), p) else 0
      ensures leads ==> forall p :: p !in c && p != id ==>
        (p in matchIndex <==> p in old(matchIndex) && p !in old(nextIndex)) && (p in matchIndex ==> matchIndex[p] == old(matchIndex)[p])
    {
      peers := c;
      if !leads {
        return;
      }
      var next := LastIndex(log) + 1;
      for i := 0 to |c|
        invariant peers == c
        invariant forall p :: p in nextIndex <==> p in old(nextIndex) || p in c[..i]
        invariant forall p :: p in nextIndex ==> nextIndex[p] == if p in old(nextIndex) then old(nextIndex)[p] else next
        invariant forall p :: Get(matchIndex, p) == if p !in old(nextIndex) && p in c[..i] then 0 else Get(old(matchIndex), p)
        invariant forall p :: p !in c ==> (p in matchIndex <==> p in old(matchIndex))
      {
        assert c[..i + 1] == c[..i] + [c[i]];
        if c[i] !in nextIndex {
          nextIndex := nextIndex[c[i] := next];
          matchIndex := matchIndex[c[i] := 0];
        }
      }
      assert c[..|c|] == c;
      ghost var grown, matched := nextIndex, matchIndex;
      var todo := nextIndex.Keys;
      while todo != {}
        invariant peers == c && todo <= nextIndex.Keys <= grown.Keys
        invariant forall p :: p in nextIndex <==> p in grown && (p in todo || p in c)
        invariant forall p :: p in nextIndex ==> nextIndex[p] == grown[p]
        invariant forall p :: p in c ==> Get(matchIndex, p) == Get(matched, p)
        invariant forall p :: p in matchIndex && p !in c ==> p in matched && matchIndex[p] == matched[p]
        invariant forall p :: p !in c ==> (p in matchIndex <==> p in matched && (p !in grown || p in todo))
      {
        var p :| p in todo;
        if p !in c {
          nextIndex := nextIndex - {p};
          matchIndex := matchIndex - {p};
        }
        todo := todo - {p};
      }
      matchIndex := matchIndex[id := LastIndex(log)];
    }

    /** A configuration change takes effect on append, and stays in effect in memory even if it cannot be saved. */
    method ChangeConfiguration(ch: Change, saved: bool) returns (index: nat, refusal: Refusal)
      requires Valid()
      modifies this
      ensures Valid() && View() == Next(old(View()), Reconfigure(ch))
      ensures refusal == if Verdict(old(View()), ch) == Accepted && !saved then NotSaved else Verdict(old(View()), ch)
      ensures refusal != Accepted ==> index == 0 && durable == old(durable)
      ensures refusal == Accepted ==> index == LastIndex(log) && durable == log
      ensures refusal == Accepted || refusal == NotSaved ==>
        log == old(log) + [LogEntry(term, LastIndex(old(log)) + 1, Some(EncodeConfig(peers)))] && nextIndex.Keys == Members(peers)
      ensures refusal != Accepted && refusal != NotSaved ==>
        log == old(log) && nextIndex == old(nextIndex) && matchIndex == old(matchIndex)
    {
      hide DiffersByOne, WithServer, WithoutServer, EncodeConfig, Members;
      index := 0;
      if !leads {
        return 0, NotLeader;
      }
      if id !in peers {
        return 0, NotInConfiguration;
      }
      if changeIndex > commitIndex {
        return 0, InFlight;
      }
      match ch {
        case Add(x) =>
          if x in peers {
            return 0, AlreadyThere;
          }
        case Remove(x) =>
          if x !in peers {
            return 0, NotThere;
          }
          if |peers| == 1 {
            return 0, LastServer;
          }
      }
      var next := Proposed(peers, ch);
      if !DiffersByOne(peers, next) {
        return 0, NotSingle;
      }
      index := LastIndex(log) + 1;
      log := log + [LogEntry(term, index, Some(EncodeConfig(next)))];
      matchIndex := matchIndex[id := index];
      changeIndex := index;
      configs := configs + [(index, next)];
      UseConfiguration(next);
      if !saved {
        return 0, NotSaved;
      }
      durable := log;
      refusal := Accepted;
    }
  }
}
