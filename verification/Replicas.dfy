/**
 The layers together: the shard machine as the state machine a Raft group replicates, restores included.

 A replica is fed the entries of its log, and its machine may at any time be replaced by what a snapshot stands
 for, its own or another replica's.  Replicas fed the same entries agree on every result, balance, reservation,
 phase and decision; their histories agree exactly if no timestamp that a restore dropped was needed since.
 */
module Replicas {
  import opened Bytes
  import opened RaftLog
  import opened RaftState
  import opened RaftRuns
  import opened RaftSnapshots
  import opened Ledger
  import opened LedgerInvariant
  import opened ShardMachine
  import opened ShardSnapshot
  import opened Restores
  import opened Transfers
  import TwoPhase
  import TwoPhaseRuns
  import ShardState
  import CommandCodec

  // ----- what a replica holds -----

  /**
   What happens to a replica's machine.  One that installs another's snapshot, or starts from one, goes on from
   the life of the machine the snapshot was taken of; one that starts without begins anew.
   */
  datatype Event = Applied(entry: LogEntry) | Restored

  type Life = seq<Event>

  function Carried(e: LogEntry): Option<ShardCommand> {
    match e.command
    case None => None
    case Some(data) => CommandCodec.DecodeShard(data)
  }

  ghost function Feed(hash: Str -> nat, m: Machine, e: LogEntry): Machine {
    match Carried(e)
    case Some(c) => ApplyAt(hash, m, e.index, c).0
    case None =>
      if e.command == None then m
      else m.(byIndex := m.byIndex[e.index := Refused(ShardState.ERR_UNDECODABLE)])
  }

  ghost function Held(hash: Str -> nat, life: Life): Machine
    decreases |life|
  {
    if life == [] then NEW
    else
      var m := Held(hash, life[..|life| - 1]);
      match life[|life| - 1]
      case Applied(e) => Feed(hash, m, e)
      case Restored => Reborn(m)
  }

  /** The entries fed in a life. */
  function Part(life: Life): seq<LogEntry>
    decreases |life|
  {
    if life == [] then []
    else
      var rest := Part(life[..|life| - 1]);
      match life[|life| - 1]
      case Applied(e) => rest + [e]
      case Restored => rest
  }

  /** The machine of a replica that was fed these entries and never restored. */
  ghost function Replay(hash: Str -> nat, fed: seq<LogEntry>): Machine
    decreases |fed|
  {
    if fed == [] then NEW else Feed(hash, Replay(hash, fed[..|fed| - 1]), fed[|fed| - 1])
  }

  // ----- one entry -----

  lemma FeedOk(hash: Str -> nat, m: Machine, e: LogEntry)
    requires MachineOk(m)
    ensures MachineOk(Feed(hash, m, e))
  {
    hide MachineOk, ApplyCommand, CommandCodec.DecodeShard;
    var m' := Feed(hash, m, e);
    if Carried(e).Some? {
      MachineStepOk(hash, m, Carried(e).value);
      IndexOk(ApplyCommand(hash, m, Carried(e).value).0, m'.byIndex);
    } else {
      IndexOk(m, m'.byIndex);
    }
  }

  lemma IndexOk(m: Machine, byIndex: map<nat, Result>)
    requires MachineOk(m)
    ensures MachineOk(m.(byIndex := byIndex))
  {
    hide LedgerOk, Unique, CreditKey, DebitKey;
    var m' := m.(byIndex := byIndex);
    forall t
      ensures TxOk(m', t)
    {
      assert TxOk(m, t);
      assert Posted(m', DebitKey(t)) == Posted(m, DebitKey(t));
    }
  }

  lemma FeedAlike(hash: Str -> nat, m: Machine, k: Machine, e: LogEntry)
    requires Alike(m, k)
    ensures Alike(Feed(hash, m, e), Feed(hash, k, e))
  {
    hide LedgerAlike, TxsAlike, ApplyCommand, CommandCodec.DecodeShard;
    if Carried(e).Some? {
      CommandAlike(hash, m, k, Carried(e).value);
    }
  }

  // ----- what equally fed replicas share -----

  lemma {:induction false} HeldOk(hash: Str -> nat, life: Life)
    ensures MachineOk(Held(hash, life))
    decreases |life|
  {
    hide MachineOk, Feed, Reborn;
    if life == [] {
      NewOk();
    } else {
      var m := Held(hash, life[..|life| - 1]);
      HeldOk(hash, life[..|life| - 1]);
      match life[|life| - 1]
      case Applied(e) => FeedOk(hash, m, e);
      case Restored => RebornOk(m);
    }
  }

  /** However often it was restored, a machine is like one that replayed the log. */
  lemma {:induction false} HeldAlike(hash: Str -> nat, life: Life)
    ensures Alike(Held(hash, life), Replay(hash, Part(life)))
    decreases |life|
  {
    hide Alike, Feed, Reborn;
    if life == [] {
      AlikeSelf(NEW);
    } else {
      var rest := life[..|life| - 1];
      HeldAlike(hash, rest);
      match life[|life| - 1]
      case Applied(e) =>
        assert Part(life)[..|Part(life)| - 1] == Part(rest);
        FeedAlike(hash, Held(hash, rest), Replay(hash, Part(rest)), e);
      case Restored => RebornAlike(Held(hash, rest), Replay(hash, Part(rest)));
    }
  }

  lemma SharedAlike(m: Machine, k: Machine, l: Machine)
    requires Alike(m, l) && Alike(k, l)
    ensures Alike(m, k)
  {
  }

  /** Two lives with the same entries: the same results from here on, whatever is proposed. */
  lemma LivesAlike(hash: Str -> nat, a: Life, b: Life, commands: seq<ShardCommand>)
    requires Part(a) == Part(b)
    ensures Alike(Held(hash, a), Held(hash, b))
    ensures Results(hash, Held(hash, a), commands) == Results(hash, Held(hash, b), commands)
    ensures Alike(ApplyAll(hash, Held(hash, a), commands), ApplyAll(hash, Held(hash, b), commands))
  {
    hide Alike, Held, Part, Replay;
    HeldAlike(hash, a);
    HeldAlike(hash, b);
    SharedAlike(Held(hash, a), Held(hash, b), Replay(hash, Part(a)));
    RunAlike(hash, Held(hash, a), Held(hash, b), commands);
  }

  /**
   Replicas of a shard that have applied equally far, at any two moments of any run, whatever was lost,
   duplicated, reordered, compacted, shipped as a snapshot or restarted and however often either machine was
   restored, agree on all but timestamps; they answer alike from here on, and both have their books in order.
   */
  lemma ReplicasAgree(hash: Str -> nat, run: seq<World>, i: nat, p: Str, j: nat, q: Str, a: Life, b: Life,
                      commands: seq<ShardCommand>)
    requires CompactingRun(run) && Alive(run, i, p) && Alive(run, j, q)
    requires Seen(run, i, p).lastApplied == Seen(run, j, q).lastApplied
    requires Part(a) == Seen(run, i, p).fed && Part(b) == Seen(run, j, q).fed
    ensures Alike(Held(hash, a), Held(hash, b))
    ensures Results(hash, Held(hash, a), commands) == Results(hash, Held(hash, b), commands)
    ensures MachineOk(Held(hash, a)) && Audited(Held(hash, a).ledger)
    ensures MachineOk(Held(hash, b)) && Audited(Held(hash, b).ledger)
  {
    hide CompactingRun, Held, Part, Results, Alike, ReserveMatches, LegsMatch, RecordOk, Covered, KeysOnce, Audited,
         Unique;
    EquallyFed(run, i, p, j, q);
    LivesAlike(hash, a, b, commands);
    HeldOk(hash, a);
    HeldOk(hash, b);
  }

  lemma EquallyFed(run: seq<World>, i: nat, p: Str, j: nat, q: Str)
    requires CompactingRun(run) && Alive(run, i, p) && Alive(run, j, q)
    requires Seen(run, i, p).lastApplied == Seen(run, j, q).lastApplied
    ensures Seen(run, i, p).fed == Seen(run, j, q).fed
  {
    hide CompactingRun;
    CompactingStateMachineSafety(run, i, p, j, q);
    CompactingStateMachineSafety(run, j, q, i, p);
    var x, y := Seen(run, i, p).fed, Seen(run, j, q).fed;
    assert x == y[..|x|] == y;
  }

  // ----- catching up -----

  /** The commands in a stretch of log. */
  function Proposed(fed: seq<LogEntry>): seq<ShardCommand>
    decreases |fed|
  {
    if fed == [] then []
    else
      var rest := Proposed(fed[..|fed| - 1]);
      match Carried(fed[|fed| - 1])
      case Some(c) => rest + [c]
      case None => rest
  }

  lemma {:induction false} ReplayOn(hash: Str -> nat, fed: seq<LogEntry>, n: nat, m: Machine)
    requires n <= |fed| && Alike(Replay(hash, fed[..n]), m)
    ensures Alike(Replay(hash, fed), ApplyAll(hash, m, Proposed(fed[n..])))
    decreases |fed|
  {
    hide Alike, ApplyCommand, Carried;
    if n == |fed| {
      assert fed[..n] == fed;
    } else {
      var rest, e := fed[..|fed| - 1], fed[|fed| - 1];
      assert rest[..n] == fed[..n] && fed[n..][..|fed[n..]| - 1] == rest[n..];
      ReplayOn(hash, rest, n, m);
      var k := ApplyAll(hash, m, Proposed(rest[n..]));
      FeedLike(hash, Replay(hash, rest), k, e);
      if Carried(e).Some? {
        assert Proposed(fed[n..]) == Proposed(rest[n..]) + [Carried(e).value];
        assert Proposed(fed[n..])[..|Proposed(rest[n..])|] == Proposed(rest[n..]);
      }
    }
  }

  lemma FeedLike(hash: Str -> nat, m: Machine, k: Machine, e: LogEntry)
    requires Alike(m, k)
    ensures Carried(e) == None ==> Alike(Feed(hash, m, e), k)
    ensures Carried(e).Some? ==> Alike(Feed(hash, m, e), ApplyCommand(hash, k, Carried(e).value).0)
  {
    hide LedgerAlike, TxsAlike, ApplyCommand, Carried;
    if Carried(e).Some? {
      CommandAlike(hash, m, k, Carried(e).value);
    }
  }

  /**
   A replica that has applied an entry submitted to a leader at moment h holds, timestamps apart, what any replica
   held by then with the commands logged since applied on top.
   */
  lemma CatchUpShows(hash: Str -> nat, run: seq<World>, h: nat, p: Str, i: nat, s: Str, g: nat, q: Str, a: Life,
                     b: Life)
    requires CompactingRun(run) && Alive(run, h, p) && Alive(run, i, s) && Alive(run, g, q) && g <= h
    requires Seen(run, h, p).role == Leader && Landed(Seen(run, h, p), Seen(run, i, s))
    requires Part(a) == Seen(run, i, s).fed && Part(b) == Seen(run, g, q).fed
    ensures Part(b) <= Part(a) && Alike(Held(hash, a), ApplyAll(hash, Held(hash, b), Proposed(Part(a)[|Part(b)|..])))
  {
    hide CompactingRun, Held, Part, Alike, Landed, ApplyAll, Proposed, Replay;
    CompactingCatchUp(run, h, p, i, s, g, q);
    HeldAlike(hash, a);
    HeldAlike(hash, b);
    AlikeSelf(Replay(hash, Part(b)));
    SharedAlike(Replay(hash, Part(b)), Held(hash, b), Replay(hash, Part(b)));
    assert Part(a)[..|Part(b)|] == Part(b);
    ReplayOn(hash, Part(a), |Part(b)|, Held(hash, b));
    AlikeThrough(Held(hash, a), Replay(hash, Part(a)), ApplyAll(hash, Held(hash, b), Proposed(Part(a)[|Part(b)|..])));
  }

  lemma AlikeThrough(m: Machine, k: Machine, l: Machine)
    requires Alike(m, k) && Alike(k, l)
    ensures Alike(m, l)
  {
  }

  // ----- which timestamps a life has lost -----

  /** The machine was restored after it had recorded t. */
  ghost predicate Gone(hash: Str -> nat, life: Life, t: TxId) {
    exists k :: 0 <= k < |life| && life[k] == Restored && t in Held(hash, life[..k]).txs
  }

  /** The life up to the i-th entry it was fed. */
  function Before(life: Life, i: nat): (r: Life)
    requires i < |Part(life)|
    ensures Part(r) == Part(life)[..i]
    decreases |life|
  {
    var rest := life[..|life| - 1];
    if |Part(rest)| == i then rest else Before(rest, i)
  }

  lemma GoneStep(hash: Str -> nat, life: Life, t: TxId)
    requires life != []
    ensures
      var rest := life[..|life| - 1];
      Gone(hash, life, t) <==> Gone(hash, rest, t) || (life[|rest|] == Restored && t in Held(hash, rest).txs)
  {
    hide Held;
    var rest := life[..|life| - 1];
    assert forall k :: 0 <= k < |rest| ==> life[k] == rest[k] && life[..k] == rest[..k];
  }

  lemma FeedStamps(hash: Str -> nat, m: Machine, k: Machine, e: LogEntry, t: TxId)
    requires MachineOk(m) && MachineOk(k) && m.txs.Keys == k.txs.Keys && t in Feed(hash, m, e).txs
      && t in Feed(hash, k, e).txs
    ensures t in m.txs ==> Feed(hash, m, e).txs[t].cmd == m.txs[t].cmd && Feed(hash, k, e).txs[t].cmd == k.txs[t].cmd
    ensures t !in m.txs ==> Feed(hash, m, e).txs[t].cmd == Feed(hash, k, e).txs[t].cmd
  {
    hide MachineOk, ApplyCommand, CommandCodec.DecodeShard;
    if Carried(e).Some? {
      var c := Carried(e).value;
      if t in m.txs {
        StampStays(hash, m, c, t);
        StampStays(hash, k, c, t);
      } else {
        StampMade(hash, m, c, t);
        StampMade(hash, k, c, t);
      }
    }
  }

  lemma FeedKeeps(hash: Str -> nat, m: Machine, e: LogEntry, t: TxId)
    requires MachineOk(m) && t in m.txs
    ensures t in Feed(hash, m, e).txs
  {
    hide MachineOk, ApplyCommand, CommandCodec.DecodeShard;
    if Carried(e).Some? {
      StampStays(hash, m, Carried(e).value, t);
    }
  }

  lemma AlikeKeys(m: Machine, k: Machine)
    requires Alike(m, k)
    ensures m.txs.Keys == k.txs.Keys
  {
  }

  lemma {:induction false} GoneHeld(hash: Str -> nat, life: Life, t: TxId)
    requires Gone(hash, life, t)
    ensures t in Held(hash, life).txs
    decreases |life|
  {
    hide Gone, Feed, MachineOk, Reborn;
    GoneSome(hash, life, t);
    var rest := life[..|life| - 1];
    GoneStep(hash, life, t);
    if Gone(hash, rest, t) {
      GoneHeld(hash, rest, t);
    }
    match life[|rest|]
    case Applied(e) => HeldOk(hash, rest); FeedKeeps(hash, Held(hash, rest), e, t);
    case Restored => RebornKeys(Held(hash, rest));
  }

  lemma GoneSome(hash: Str -> nat, life: Life, t: TxId)
    requires Gone(hash, life, t)
    ensures life != []
  {
  }

  lemma RebornKeys(m: Machine)
    ensures Reborn(m).txs.Keys == m.txs.Keys
  {
  }

  /** A record has the timestamp its transaction was logged with, or none if the machine was restored since. */
  lemma {:induction false} StampsHeld(hash: Str -> nat, life: Life, t: TxId)
    requires t in Held(hash, life).txs
    ensures t in Replay(hash, Part(life)).txs
    ensures Held(hash, life).txs[t].cmd.ts
         == if Gone(hash, life, t) then UNSTAMPED else Replay(hash, Part(life)).txs[t].cmd.ts
    decreases |life|
  {
    hide Gone, Feed, MachineOk, Alike;
    HeldAlike(hash, life);
    AlikeKeys(Held(hash, life), Replay(hash, Part(life)));
    if life != [] {
      var rest := life[..|life| - 1];
      var m, k := Held(hash, rest), Replay(hash, Part(rest));
      GoneStep(hash, life, t);
      if t in m.txs {
        StampsHeld(hash, rest, t);
      } else if Gone(hash, rest, t) {
        GoneHeld(hash, rest, t);
      }
      match life[|rest|]
      case Restored =>
      case Applied(e) =>
        assert Part(life)[..|Part(life)| - 1] == Part(rest);
        HeldOk(hash, rest);
        ReplayOk(hash, Part(rest));
        HeldAlike(hash, rest);
        AlikeKeys(m, k);
        FeedStamps(hash, m, k, e, t);
    }
  }

  lemma {:induction false} ReplayOk(hash: Str -> nat, fed: seq<LogEntry>)
    ensures MachineOk(Replay(hash, fed))
    decreases |fed|
  {
    hide MachineOk, Feed;
    if fed == [] {
      NewOk();
    } else {
      ReplayOk(hash, fed[..|fed| - 1]);
      FeedOk(hash, Replay(hash, fed[..|fed| - 1]), fed[|fed| - 1]);
    }
  }

  // ----- when histories part -----

  /**
   The i-th entry is a commit without a timestamp that posts a leg for a record logged with one, and just one of
   the two machines was restored between.
   */
  ghost predicate Parting(hash: Str -> nat, a: Life, b: Life, i: nat)
    requires Part(a) == Part(b) && i < |Part(a)|
  {
    var m, c := Replay(hash, Part(a)[..i]), Carried(Part(a)[i]);
    && c.Some? && Books(m, c.value) && m.txs[c.value.txId].cmd.ts != UNSTAMPED
    && Gone(hash, Before(a, i), c.value.txId) != Gone(hash, Before(b, i), c.value.txId)
  }

  ghost predicate NoParting(hash: Str -> nat, a: Life, b: Life)
    requires Part(a) == Part(b)
  {
    forall i :: 0 <= i < |Part(a)| ==> !Parting(hash, a, b, i)
  }

  /** One entry fed to two machines whose histories agree so far. */
  lemma EntryExactly(hash: Str -> nat, a: Life, b: Life, e: LogEntry)
    requires Part(a) == Part(b) && Held(hash, a).ledger.history == Held(hash, b).ledger.history
    ensures
      Feed(hash, Held(hash, a), e).ledger.history == Feed(hash, Held(hash, b), e).ledger.history <==>
      var m, c := Replay(hash, Part(a)), Carried(e);
      !(c.Some? && Books(m, c.value) && m.txs[c.value.txId].cmd.ts != UNSTAMPED
        && Gone(hash, a, c.value.txId) != Gone(hash, b, c.value.txId))
  {
    hide Held, Part, Replay, Gone, Alike, ApplyCommand, CommandCodec.DecodeShard, Posts;
    if Carried(e).Some? {
      var c, m, k := Carried(e).value, Held(hash, a), Held(hash, b);
      LivesAlike(hash, a, b, []);
      HeldAlike(hash, a);
      BooksAlike(m, Replay(hash, Part(a)), c);
      BooksExactly(hash, m, k, c);
      if Books(m, c) {
        AlikeKeys(m, k);
        assert c.txId in m.txs by { BooksRecorded(m, c); }
        StampsHeld(hash, a, c.txId);
        StampsHeld(hash, b, c.txId);
      }
    }
  }

  lemma BooksRecorded(m: Machine, c: ShardCommand)
    requires Books(m, c)
    ensures c.txId in m.txs
  {
  }

  /** A restore books nothing. */
  lemma RestoreParts(hash: Str -> nat, a: Life, b: Life)
    requires Part(a) == Part(b) && a != [] && a[|a| - 1] == Restored
    ensures Part(a[..|a| - 1]) == Part(b) && Held(hash, a).ledger == Held(hash, a[..|a| - 1]).ledger
    ensures NoParting(hash, a, b) == NoParting(hash, a[..|a| - 1], b)
  {
    hide Replay, Gone, Books, Carried;
    var rest := a[..|a| - 1];
    assert forall i :: 0 <= i < |Part(a)| ==> Before(a, i) == Before(rest, i);
    assert forall i :: 0 <= i < |Part(a)| ==> Parting(hash, a, b, i) == Parting(hash, rest, b, i);
  }

  lemma PartingTurned(hash: Str -> nat, a: Life, b: Life)
    requires Part(a) == Part(b)
    ensures NoParting(hash, a, b) == NoParting(hash, b, a)
  {
    hide Replay, Gone, Books, Carried, Part, Before;
    assert forall i :: 0 <= i < |Part(a)| ==> Parting(hash, a, b, i) == Parting(hash, b, a, i);
  }

  /** Two lives that end in the same entry. */
  lemma EntryParts(hash: Str -> nat, a: Life, b: Life, e: LogEntry)
    requires Part(a) == Part(b)
    ensures Part(a + [Applied(e)]) == Part(b + [Applied(e)]) == Part(a) + [e]
    ensures NoParting(hash, a + [Applied(e)], b + [Applied(e)]) <==>
      NoParting(hash, a, b) && !Parting(hash, a + [Applied(e)], b + [Applied(e)], |Part(a)|)
    ensures Before(a + [Applied(e)], |Part(a)|) == a && Before(b + [Applied(e)], |Part(a)|) == b
  {
    hide Replay, Gone, Books, Carried;
    var a', b', n := a + [Applied(e)], b + [Applied(e)], |Part(a)|;
    assert a'[..|a|] == a && b'[..|b|] == b;
    assert Part(a') == Part(a) + [e] == Part(b');
    forall i | 0 <= i < n
      ensures Parting(hash, a', b', i) == Parting(hash, a, b, i)
    {
      assert Before(a', i) == Before(a, i) && Before(b', i) == Before(b, i);
      assert Part(a')[..i] == Part(a)[..i] && Part(a')[i] == Part(a)[i];
    }
  }

  lemma FeedGrows(hash: Str -> nat, m: Machine, e: LogEntry)
    ensures m.ledger.history <= Feed(hash, m, e).ledger.history
  {
    hide ApplyCommand, CommandCodec.DecodeShard;
    if Carried(e).Some? {
      HistoryGrows(hash, m, Carried(e).value);
    }
  }

  /** Histories that differ stay different. */
  lemma StayApart(hash: Str -> nat, m: Machine, k: Machine, e: LogEntry)
    requires Alike(m, k) && m.ledger.history != k.ledger.history
    ensures Feed(hash, m, e).ledger.history != Feed(hash, k, e).ledger.history
  {
    hide Feed;
    FeedGrows(hash, m, e);
    FeedGrows(hash, k, e);
    var h, g := m.ledger.history, k.ledger.history;
    assert |h| == |g|;
    assert Feed(hash, m, e).ledger.history[..|h|] == h && Feed(hash, k, e).ledger.history[..|g|] == g;
  }

  /**
   Exactly when replicas fed the same entries have the same history: no commit without a timestamp of its own
   posted a leg for a record that was logged with one and that just one of them has been restored since.
   */
  lemma {:induction false} HistoriesExactly(hash: Str -> nat, a: Life, b: Life)
    requires Part(a) == Part(b)
    ensures Held(hash, a).ledger.history == Held(hash, b).ledger.history <==> NoParting(hash, a, b)
    decreases |a| + |b|
  {
    hide Feed, NoParting, Alike, Replay;
    if a != [] && a[|a| - 1] == Restored {
      RestoreParts(hash, a, b);
      HistoriesExactly(hash, a[..|a| - 1], b);
    } else if b != [] && b[|b| - 1] == Restored {
      PartingTurned(hash, a, b);
      RestoreParts(hash, b, a);
      PartingTurned(hash, a, b[..|b| - 1]);
      HistoriesExactly(hash, a, b[..|b| - 1]);
    } else if a != [] && b != [] {
      var x, y, e := a[..|a| - 1], b[..|b| - 1], a[|a| - 1].entry;
      LastEntry(a, b);
      assert a == x + [Applied(e)] && b == y + [Applied(e)];
      HistoriesExactly(hash, x, y);
      LastExactly(hash, x, y, e);
    } else {
      NothingParts(hash, a, b);
    }
  }

  lemma LastEntry(a: Life, b: Life)
    requires Part(a) == Part(b) && a != [] && b != [] && a[|a| - 1].Applied? && b[|b| - 1].Applied?
    ensures a[|a| - 1] == b[|b| - 1] && Part(a[..|a| - 1]) == Part(b[..|b| - 1])
  {
    hide Part;
    var x, y := a[..|a| - 1], b[..|b| - 1];
    PartLast(a);
    PartLast(b);
    LastSame(Part(x), a[|a| - 1].entry, Part(y), b[|b| - 1].entry);
  }

  lemma PartLast(a: Life)
    requires a != [] && a[|a| - 1].Applied?
    ensures Part(a) == Part(a[..|a| - 1]) + [a[|a| - 1].entry]
  {
  }

  lemma LastSame(x: seq<LogEntry>, e: LogEntry, y: seq<LogEntry>, f: LogEntry)
    requires x + [e] == y + [f]
    ensures x == y && e == f
  {
    assert x == (x + [e])[..|x|] && y == (y + [f])[..|y|];
    assert (x + [e])[|x|] == e && (y + [f])[|y|] == f;
  }

  lemma NothingParts(hash: Str -> nat, a: Life, b: Life)
    requires Part(a) == Part(b) && (a == [] || a[|a| - 1].Applied?) && (b == [] || b[|b| - 1].Applied?)
      && (a == [] || b == [])
    ensures a == b == [] && NoParting(hash, a, b)
  {
  }

  lemma LastExactly(hash: Str -> nat, a: Life, b: Life, e: LogEntry)
    requires Part(a) == Part(b)
    requires Held(hash, a).ledger.history == Held(hash, b).ledger.history <==> NoParting(hash, a, b)
    ensures
      var x, y := a + [Applied(e)], b + [Applied(e)];
      Part(x) == Part(y) && (Held(hash, x).ledger.history == Held(hash, y).ledger.history <==> NoParting(hash, x, y))
  {
    hide Feed, NoParting, Alike, Replay, Gone, Books, Carried, Part, Before;
    var x, y := a + [Applied(e)], b + [Applied(e)];
    assert x[..|a|] == a && y[..|b|] == b;
    EntryParts(hash, a, b, e);
    if NoParting(hash, a, b) {
      EntryExactly(hash, a, b, e);
      assert Part(x)[..|Part(a)|] == Part(a);
    } else {
      LivesAlike(hash, a, b, []);
      StayApart(hash, Held(hash, a), Held(hash, b), e);
    }
  }

  /** Their snapshots are then, and only then, the same bytes. */
  lemma SnapshotsExactly(hash: Str -> nat, a: Life, b: Life)
    requires Part(a) == Part(b) && ShardFits(Held(hash, a)) && ShardFits(Held(hash, b))
    ensures PutShard(Held(hash, a)) == PutShard(Held(hash, b)) <==> NoParting(hash, a, b)
  {
    hide Held, Part, NoParting, PutShard, ShardFits, Alike;
    LivesAlike(hash, a, b, []);
    BytesExactly(Held(hash, a), Held(hash, b));
    HistoriesExactly(hash, a, b);
  }

  ghost predicate StampedIfOutcome(c: Option<ShardCommand>) {
    c.Some? && c.value.op == OP_OUTCOME && c.value.commit ==> c.value.ledger.ts != UNSTAMPED
  }

  /** Commits that carry their transfer's timestamp, as the coordinator's own do, never part histories. */
  lemma StampedAgree(hash: Str -> nat, a: Life, b: Life)
    requires Part(a) == Part(b)
    requires forall i :: 0 <= i < |Part(a)| ==> StampedIfOutcome(Carried(Part(a)[i]))
    ensures Held(hash, a).ledger == Held(hash, b).ledger
  {
    hide Held, Part, Replay, Gone, Carried, Posts, Before, LedgerAlike, TxsAlike;
    HistoriesExactly(hash, a, b);
    LivesAlike(hash, a, b, []);
    SameLedger(Held(hash, a), Held(hash, b));
  }

  // ----- recovery by a restored leader -----

  function Logged(index: nat, c: ShardCommand): Event {
    Applied(LogEntry(0, index, Some(CommandCodec.EncodeShard(c))))
  }

  /** The life of a debit side that prepared a transfer and logged its commit. */
  function Decided(life: Life, n: nat, t: TxId, p: TwoPhase.Plan): Life {
    life + [Logged(n, TwoPhase.Proposal(t, p, TwoPhase.AskDebit)), Logged(n + 1, TwoPhase.Proposal(t, p, TwoPhase.LogDecision(true)))]
  }

  ghost predicate Storable(t: TxId, p: TwoPhase.Plan) {
    CommandCodec.Short16(t) && CommandCodec.LedgerStorable(p.cmd) && CommandCodec.Short16(p.from) && CommandCodec.Short16(p.to)
  }

  lemma LoggedHeld(hash: Str -> nat, life: Life, n: nat, c: ShardCommand)
    requires CommandCodec.ShardStorable(c)
    ensures Held(hash, life + [Logged(n, c)]) == ApplyAt(hash, Held(hash, life), n, c).0
    ensures Part(life + [Logged(n, c)]) == Part(life) + [Logged(n, c).entry]
  {
    hide ApplyAt, CommandCodec.DecodeShard, CommandCodec.ShardStorable;
    CommandCodec.ShardRoundTrip(c);
    assert (life + [Logged(n, c)])[..|life|] == life;
  }

  lemma DecidedHeld(hash: Str -> nat, life: Life, n: nat, t: TxId, p: TwoPhase.Plan)
    requires t !in Held(hash, life).txs && Funded(Held(hash, life).ledger, p.cmd) && Storable(t, p)
    ensures
      var m := Held(hash, Decided(life, n, t, p));
      && t in m.txs && Decision(m, t) == Some(true)
      && m.txs[t] == TxRecord(t, Prepared, p.cmd, true, [p.from, p.to], p.from, true, true)
  {
    hide Held, Part, MachineOk, Available, CommandCodec.LedgerStorable, Logged;
    var c, d := TwoPhase.Proposal(t, p, TwoPhase.AskDebit), TwoPhase.Proposal(t, p, TwoPhase.LogDecision(true));
    HeldOk(hash, life);
    VotesExactly(hash, Held(hash, life), t, p);
    LoggedHeld(hash, life, n, c);
    LoggedHeld(hash, life + [Logged(n, c)], n + 1, d);
    assert Decided(life, n, t, p) == life + [Logged(n, c)] + [Logged(n + 1, d)];
  }

  /**
   Any funded transfer can part histories.  Two replicas log its prepare and its commit decision, one of them is
   restored, and recovery proposes what the restored one, now leading, reads in its record: the debit is booked
   under the transfer's timestamp in one history and under none in the other.
   */
  lemma RestoredRecoveryParts(hash: Str -> nat, life: Life, n: nat, t: TxId, p: TwoPhase.Plan)
    requires t !in Held(hash, life).txs && Funded(Held(hash, life).ledger, p.cmd) && Storable(t, p)
    requires p.cmd.ts != UNSTAMPED
    ensures
      var a := Decided(life, n, t, p);
      var b := a + [Restored];
      && t in Held(hash, b).txs
      && var e := Logged(n + 2, TwoPhaseRuns.RecoveryOutcome(Held(hash, b).txs[t], Held(hash, b)));
         && Part(a + [e]) == Part(b + [e])
         && Held(hash, a + [e]).ledger.history != Held(hash, b + [e]).ledger.history
  {
    hide Held, Part, MachineOk, ApplyCommand, CommandCodec.EncodeShard, Decided, Funded;
    var a := Decided(life, n, t, p);
    var b := a + [Restored];
    DecidedHeld(hash, life, n, t, p);
    RestoredHeld(hash, a);
    HeldOk(hash, a);
    var c := TwoPhaseRuns.RecoveryOutcome(Held(hash, b).txs[t], Held(hash, b));
    LoggedHeld(hash, a, n + 2, c);
    LoggedHeld(hash, b, n + 2, c);
    RestoredRecoveryDiverges(hash, Held(hash, a), t);
  }

  lemma RestoredHeld(hash: Str -> nat, life: Life)
    ensures Held(hash, life + [Restored]) == Reborn(Held(hash, life)) && Part(life + [Restored]) == Part(life)
  {
    assert (life + [Restored])[..|life|] == life;
  }
}
