/**
 Shard snapshots (shard/snapshot.go): what the bytes keep of a shard machine, and why a machine restored
 from them answers every command as one that replayed the log does.
 */
module ShardSnapshot {
  import opened Bytes
  import opened Parsing
  import opened SortedKeys
  import opened Ledger
  import L = Ledger
  import opened LedgerSnapshot
  import opened ShardMachine

  // ----- the format -----

  function PhaseCode(p: Phase): Byte {
    match p case Unknown => 0 case Prepared => 1 case Committed => 2 case Aborted => 3
  }

  function PhaseOf(v: U64): Phase {
    if v % 256 == 1 then Prepared else if v % 256 == 2 then Committed else if v % 256 == 3 then Aborted else Unknown
  }

  /** A record without its command's timestamp, which the format does not carry. */
  function Unstamped(r: TxRecord): TxRecord { r.(cmd := r.cmd.(ts := UNSTAMPED)) }

  function PutFlags(debit: bool, decided: bool, commit: bool): Str {
    PutBool(debit) + PutBool(decided) + PutBool(commit)
  }

  function GetFlags(d: Str): Option<((bool, bool, bool), Str)> {
    var (debit, d1) :- GetBool(d);
    var (decided, d2) :- GetBool(d1);
    var (commit, d3) :- GetBool(d2);
    Some(((debit, decided, commit), d3))
  }

  function PutRecord(p: (TxId, TxRecord)): Str {
    var r := p.1;
    PutStr(r.id) + PutU64(PhaseCode(r.phase)) + PutFlags(r.debit, r.decided, r.commit) + PutStr(r.coordinator)
      + PutU64(|r.participants|) + Concat(r.participants, PutStr)
      + PutU64(r.cmd.op) + PutStr(r.cmd.key) + PutStr(r.cmd.from) + PutStr(r.cmd.to) + PutI64(r.cmd.amount)
  }

  function GetCommand(d: Str): Option<(Command, Str)> {
    var (op, d1) :- GetU64(d);
    var (key, d2) :- GetStr(d1);
    var (from, d3) :- GetStr(d2);
    var (to, d4) :- GetStr(d3);
    var (amount, d5) :- GetI64(d4);
    Some((Command(op % 256, key, from, to, amount, UNSTAMPED), d5))
  }

  function GetParticipants(d: Str): Option<(seq<ShardId>, Str)> {
    var (n, d1) :- GetU64(d);
    GetMany(n, d1, GetStr, [], AddLast)
  }

  function GetRecord(d: Str): Option<((TxId, TxRecord), Str)> {
    var (id, d1) :- GetStr(d);
    var (phase, d2) :- GetU64(d1);
    var (flags, d3) :- GetFlags(d2);
    var (coordinator, d4) :- GetStr(d3);
    var (participants, d5) :- GetParticipants(d4);
    var (cmd, d6) :- GetCommand(d5);
    Some(((id, TxRecord(id, PhaseOf(phase), cmd, flags.0, participants, coordinator, flags.1, flags.2)), d6))
  }

  ghost function PutShard(m: Machine): Str {
    PutStr(PutLedger(m.ledger)) + PutMap(m.txs, PutRecord) + PutMap(m.results, PutResult)
  }

  function GetRecords(d: Str): Option<(map<TxId, TxRecord>, Str)> { GetMap(d, GetRecord) }

  /** The three sections of a snapshot, the ledger's still in its own encoding. */
  function GetSections(d: Str): Option<((Str, map<TxId, TxRecord>, map<Str, Result>), Str)> {
    var (ledgerData, d1) :- GetStr(d);
    var (txs, d2) :- GetRecords(d1);
    var (results, d3) :- GetResults(d2);
    Some(((ledgerData, txs, results), d3))
  }

  /** byIndex starts over. */
  function GetShard(d: Str): Option<(Machine, Str)> {
    var ((ledgerData, txs, results), rest) :- GetSections(d);
    var (ledger, _) :- GetLedger(ledgerData);
    Some((Machine(ledger, txs, results, map[]), rest))
  }

  // ----- what fits -----

  ghost predicate RecordFits(t: TxId, r: TxRecord) {
    && r.id == t && Short(t) && Short(r.coordinator) && |r.participants| < TWO_64
    && (forall i :: 0 <= i < |r.participants| ==> Short(r.participants[i]))
    && Short(r.cmd.key) && Short(r.cmd.from) && Short(r.cmd.to)
  }

  ghost predicate ShardFits(m: Machine) {
    && Fits(m.ledger) && Short(PutLedger(m.ledger)) && |m.txs| < TWO_64 && |m.results| < TWO_64
    && (forall t :: t in m.txs ==> RecordFits(t, m.txs[t]))
    && (forall k :: k in m.results ==> Short(k) && Short(m.results[k].err))
  }

  // ----- reading back -----

  lemma CommandReads(c: Command, rest: Str)
    requires Short(c.key) && Short(c.from) && Short(c.to)
    ensures GetCommand(PutU64(c.op) + PutStr(c.key) + PutStr(c.from) + PutStr(c.to) + PutI64(c.amount) + rest)
         == Some((c.(ts := UNSTAMPED), rest))
  {
    hide GetStr, GetU64, GetI64, PutStr, PutU64, PutI64;
    var r4 := PutI64(c.amount) + rest;
    var r3 := PutStr(c.to) + r4;
    var r2 := PutStr(c.from) + r3;
    var r1 := PutStr(c.key) + r2;
    assert PutU64(c.op) + PutStr(c.key) + PutStr(c.from) + PutStr(c.to) + PutI64(c.amount) + rest == PutU64(c.op) + r1;
    U64Then(c.op, r1);
    StrReads(c.key);
    StrReads(c.from);
    StrReads(c.to);
    I64Reads(c.amount);
  }

  lemma ParticipantsRead(ps: seq<ShardId>, rest: Str)
    requires |ps| < TWO_64 && forall i :: 0 <= i < |ps| ==> Short(ps[i])
    ensures GetParticipants(PutU64(|ps|) + Concat(ps, PutStr) + rest) == Some((ps, rest))
  {
    hide GetStr, GetU64, PutStr, PutU64, GetMany, Concat, FoldLeft;
    var tail := Concat(ps, PutStr) + rest;
    assert PutU64(|ps|) + Concat(ps, PutStr) + rest == PutU64(|ps|) + tail;
    U64Then(|ps|, tail);
    forall i | 0 <= i < |ps|
      ensures Reads(GetStr, PutStr(ps[i]), ps[i])
    {
      StrReads(ps[i]);
    }
    ManyReads(ps, PutStr, GetStr, [], AddLast, rest);
    AddLastFold([], ps);
    assert [] + ps == ps;
  }

  lemma FlagsRead(debit: bool, decided: bool, commit: bool, rest: Str)
    ensures GetFlags(PutFlags(debit, decided, commit) + rest) == Some(((debit, decided, commit), rest))
  {
    hide GetBool, PutBool;
    BoolReads(debit);
    BoolReads(decided);
    BoolReads(commit);
    assert PutFlags(debit, decided, commit) + rest == PutBool(debit) + (PutBool(decided) + (PutBool(commit) + rest));
  }

  lemma RecordReadsThen(t: TxId, r: TxRecord, rest: Str)
    requires RecordFits(t, r)
    ensures GetRecord(PutRecord((t, r)) + rest) == Some(((t, Unstamped(r)), rest))
  {
    hide GetStr, GetU64, PutStr, PutU64, PutFlags, GetFlags, PutI64, GetParticipants, GetCommand, Concat;
    var c := r.cmd;
    var r6 := PutU64(c.op) + PutStr(c.key) + PutStr(c.from) + PutStr(c.to) + PutI64(c.amount) + rest;
    var r5 := PutU64(|r.participants|) + Concat(r.participants, PutStr) + r6;
    var r4 := PutStr(r.coordinator) + r5;
    var r3 := PutFlags(r.debit, r.decided, r.commit) + r4;
    var r2 := PutU64(PhaseCode(r.phase)) + r3;
    assert PutRecord((t, r)) + rest == PutStr(r.id) + r2;
    StrThen(r.id, r2);
    U64Then(PhaseCode(r.phase), r3);
    FlagsRead(r.debit, r.decided, r.commit, r4);
    StrThen(r.coordinator, r5);
    ParticipantsRead(r.participants, r6);
    CommandReads(c, rest);
  }

  /** The txs section, timestamps dropped. */
  ghost function Erased(txs: map<TxId, TxRecord>): map<TxId, TxRecord> {
    map t | t in txs :: Unstamped(txs[t])
  }

  lemma {:induction false} ConcatSame<T>(a: seq<T>, b: seq<T>, put: T -> Str)
    requires |a| == |b| && forall i :: 0 <= i < |a| ==> put(a[i]) == put(b[i])
    ensures Concat(a, put) == Concat(b, put)
    decreases |a|
  {
    if a != [] {
      ConcatSame(a[1..], b[1..], put);
    }
  }

  lemma ErasedSame(txs: map<TxId, TxRecord>)
    ensures PutMap(txs, PutRecord) == PutMap(Erased(txs), PutRecord)
  {
    hide Concat, PutStr, PutU64, PutFlags, PutI64;
    assert Erased(txs).Keys == txs.Keys;
    assert |Erased(txs)| == |Erased(txs).Keys| == |txs.Keys| == |txs|;
    var keys := Keys(txs.Keys);
    assert forall k :: k in keys ==> k in Elements(keys);
    ConcatSame(Pairs(txs, keys), Pairs(Erased(txs), keys), PutRecord);
  }

  /** The machine a snapshot stands for. */
  ghost function Reborn(m: Machine): Machine {
    m.(txs := Erased(m.txs), byIndex := map[])
  }

  lemma TxsRead(txs: map<TxId, TxRecord>, rest: Str)
    requires |txs| < TWO_64 && forall t :: t in txs ==> RecordFits(t, txs[t])
    ensures GetMap(PutMap(txs, PutRecord) + rest, GetRecord) == Some((Erased(txs), rest))
  {
    hide GetMap, PutMap, GetRecord, PutRecord;
    ErasedSame(txs);
    var e := Erased(txs);
    assert e.Keys == txs.Keys && |e| == |e.Keys| == |txs.Keys| == |txs|;
    forall t | t in e
      ensures Reads(GetRecord, PutRecord((t, e[t])), (t, e[t]))
    {
      forall tail: Str
        ensures GetRecord(PutRecord((t, e[t])) + tail) == Some(((t, e[t]), tail))
      {
        RecordReadsThen(t, e[t], tail);
      }
    }
    MapReads(e, PutRecord, GetRecord, rest);
  }

  /** Restoring a snapshot gives the machine back, but for byIndex and the timestamps of recorded commands. */
  lemma ShardReads(m: Machine, rest: Str)
    requires ShardFits(m)
    ensures GetShard(PutShard(m) + rest) == Some((Reborn(m), rest))
  {
    hide GetMap, PutMap, GetRecord, GetResult, GetLedger, PutLedger, GetStr, PutStr, Fits, RecordFits, Reads;
    var l := PutLedger(m.ledger);
    var r2 := PutMap(m.results, PutResult) + rest;
    var r1 := PutMap(m.txs, PutRecord) + r2;
    assert PutShard(m) + rest == PutStr(l) + r1;
    StrThen(l, r1);
    TxsRead(m.txs, r2);
    forall k | k in m.results ensures Reads(GetResult, PutResult((k, m.results[k])), (k, m.results[k])) {
      ResultReads((k, m.results[k]));
    }
    MapReads(m.results, PutResult, GetResult, rest);
    LedgerReads(m.ledger, []);
    assert l + [] == l;
  }

  lemma StrThen(s: Str, rest: Str)
    requires Short(s)
    ensures GetStr(PutStr(s) + rest) == Some((s, rest))
  {
    StrReads(s);
  }

  // ----- truncation -----

  lemma RecordSteadyAt(d: Str, q: Str)
    requires GetRecord(d).Some?
    ensures GetRecord(d + q) == Some((GetRecord(d).value.0, GetRecord(d).value.1 + q))
  {
    hide GetStr, GetU64, GetBool, GetI64, GetMany;
    GetStrSteady();
    GetU64Steady();
    GetBoolSteady();
    GetI64Steady();
    var (id, d1) := GetStr(d).value;
    var (phase, d2) := GetU64(d1).value;
    var (flags, d3) := GetFlags(d2).value;
    var (coordinator, d4) := GetStr(d3).value;
    var (n, d5) := GetU64(d4).value;
    GetManySteady(n, d5, q, GetStr, [], AddLast);
  }

  lemma ShardSteady()
    ensures Steady(GetShard)
  {
    hide GetStr, GetMap, GetRecord, GetResult, GetLedger;
    GetStrSteady();
    ItemsSteady();
    assert Steady(GetRecord) by {
      forall d: Str, q: Str | GetRecord(d).Some?
        ensures GetRecord(d + q) == Some((GetRecord(d).value.0, GetRecord(d).value.1 + q))
      {
        RecordSteadyAt(d, q);
      }
    }
    forall d: Str, q: Str | GetShard(d).Some?
      ensures GetShard(d + q) == Some((GetShard(d).value.0, GetShard(d).value.1 + q))
    {
      var (ledgerData, d1) := GetStr(d).value;
      MapSteady(d1, q, GetRecord);
      var (txs, d2) := GetMap(d1, GetRecord).value;
      MapSteady(d2, q, GetResult);
    }
  }

  lemma ShardPrefixRefused(m: Machine, cut: nat)
    requires ShardFits(m) && cut < |PutShard(m)|
    ensures GetShard(PutShard(m)[..cut]) == None
  {
    hide GetShard, PutShard, ShardFits;
    forall rest: Str
      ensures GetShard(PutShard(m) + rest) == Some((Reborn(m), rest))
    {
      ShardReads(m, rest);
    }
    ShardSteady();
    PrefixRefused(GetShard, PutShard(m), Reborn(m), cut);
  }

  // ----- a restored machine behaves the same -----

  ghost predicate HistoryAlike(h: seq<Transaction>, k: seq<Transaction>) {
    |h| == |k| && forall i :: 0 <= i < |h| ==> h[i].(ts := UNSTAMPED) == k[i].(ts := UNSTAMPED)
  }

  /** Equal but for the timestamps booked in the history. */
  ghost predicate LedgerAlike(l: Ledger, k: Ledger) {
    k == l.(history := k.history) && HistoryAlike(l.history, k.history)
  }

  ghost predicate TxsAlike(a: map<TxId, TxRecord>, b: map<TxId, TxRecord>) {
    a.Keys == b.Keys && forall t :: t in a ==> Unstamped(a[t]) == Unstamped(b[t])
  }

  /** Same balances, reservations, results, phases and decisions. */
  ghost predicate Alike(m: Machine, k: Machine) {
    LedgerAlike(m.ledger, k.ledger) && TxsAlike(m.txs, k.txs) && m.results == k.results
  }

  lemma RecordAlike(l: Ledger, k: Ledger, op: Byte, key: Str, ts: Timestamp, us: Timestamp, entries: seq<Entry>)
    requires LedgerAlike(l, k)
    ensures LedgerAlike(Record(l, op, key, ts, entries), Record(k, op, key, us, entries))
  {
  }

  lemma OpenAlike(l: Ledger, k: Ledger, c: Command)
    requires LedgerAlike(l, k)
    ensures Open(l, c).1 == Open(k, c).1 && LedgerAlike(Open(l, c).0, Open(k, c).0)
    ensures Deposit(l, c).1 == Deposit(k, c).1 && LedgerAlike(Deposit(l, c).0, Deposit(k, c).0)
  {
    hide HistoryAlike, Record, Wrap;
    var e := [Entry(c.to, c.amount)];
    RecordAlike(l.(balances := l.balances[c.to := c.amount]), k.(balances := k.balances[c.to := c.amount]), c.op,
                c.key, c.ts, c.ts, e);
    RecordAlike(Move(l, c.to, c.amount), Move(k, c.to, c.amount), c.op, c.key, c.ts, c.ts, e);
  }

  lemma WithdrawAlike(l: Ledger, k: Ledger, c: Command)
    requires LedgerAlike(l, k)
    ensures Withdraw(l, c).1 == Withdraw(k, c).1 && LedgerAlike(Withdraw(l, c).0, Withdraw(k, c).0)
    ensures Transfer(l, c).1 == Transfer(k, c).1 && LedgerAlike(Transfer(l, c).0, Transfer(k, c).0)
  {
    hide HistoryAlike, Record, Wrap, Reserved, Negate;
    var l1, k1 := Move(l, c.from, 0 - c.amount), Move(k, c.from, 0 - c.amount);
    RecordAlike(l1, k1, c.op, c.key, c.ts, c.ts, [Entry(c.from, Negate(c.amount))]);
    RecordAlike(Move(l1, c.to, c.amount), Move(k1, c.to, c.amount), c.op, c.key, c.ts, c.ts,
                [Entry(c.from, Negate(c.amount)), Entry(c.to, c.amount)]);
  }

  lemma ApplyAlike(hash: Str -> nat, l: Ledger, k: Ledger, c: Command)
    requires LedgerAlike(l, k)
    ensures L.Apply(hash, l, c).1 == L.Apply(hash, k, c).1 && LedgerAlike(L.Apply(hash, l, c).0, L.Apply(hash, k, c).0)
  {
    hide HistoryAlike, Open, Deposit, Withdraw, Transfer, HasPrefix, Request;
    OpenAlike(l, k, c);
    WithdrawAlike(l, k, c);
  }

  lemma SettleAlike(m: Machine, k: Machine, c: ShardCommand)
    requires Alike(m, k) && c.txId in m.txs
    ensures Settle(m, c, m.txs[c.txId]).1 == Settle(k, c, k.txs[c.txId]).1
    ensures LedgerAlike(Settle(m, c, m.txs[c.txId]).0, Settle(k, c, k.txs[c.txId]).0)
  {
    hide HistoryAlike, Record, Wrap, Reserved, Negate, CreditKey, DebitKey;
    var l, q, a, b := m.ledger, k.ledger, m.txs[c.txId], k.txs[c.txId];
    assert Unstamped(a) == Unstamped(b);
    var ts, us := OutcomeTimestamp(c, a), OutcomeTimestamp(c, b);
    if c.commit && a.debit && c.txId in l.reserves {
      var r := l.reserves[c.txId];
      RecordAlike(Move(l, r.account, 0 - r.amount).(reserves := l.reserves - {c.txId}),
                  Move(q, r.account, 0 - r.amount).(reserves := q.reserves - {c.txId}),
                  OP_TRANSFER, DebitKey(c.txId), ts, us, [Entry(r.account, Negate(r.amount))]);
    } else if c.commit && !a.debit {
      RecordAlike(Move(l, a.cmd.to, a.cmd.amount), Move(q, a.cmd.to, a.cmd.amount),
                  OP_TRANSFER, CreditKey(c.txId), ts, us, [Entry(a.cmd.to, a.cmd.amount)]);
    }
  }

  lemma VoteAlike(m: Machine, k: Machine, c: ShardCommand)
    requires Alike(m, k)
    ensures Vote(m, c).1 == Vote(k, c).1 && LedgerAlike(Vote(m, c).0, Vote(k, c).0)
  {
    hide HistoryAlike, Wrap, Reserved;
  }

  lemma TxsUpdated(a: map<TxId, TxRecord>, b: map<TxId, TxRecord>, t: TxId, r: TxRecord, s: TxRecord)
    requires TxsAlike(a, b) && Unstamped(r) == Unstamped(s)
    ensures TxsAlike(a[t := r], b[t := s])
  {
  }

  lemma PrepareAlike(m: Machine, k: Machine, c: ShardCommand)
    requires Alike(m, k)
    ensures ApplyPrepare(m, c).1 == ApplyPrepare(k, c).1 && Alike(ApplyPrepare(m, c).0, ApplyPrepare(k, c).0)
  {
    hide LedgerAlike, Vote;
    VoteAlike(m, k, c);
    if c.txId in m.txs {
      assert Unstamped(m.txs[c.txId]) == Unstamped(k.txs[c.txId]);
    }
    var m' := ApplyPrepare(m, c).0;
    if m' != m {
      TxsUpdated(m.txs, k.txs, c.txId, m'.txs[c.txId], m'.txs[c.txId]);
    }
  }

  lemma DecisionAlike(m: Machine, k: Machine, c: ShardCommand)
    requires Alike(m, k)
    ensures Alike(ApplyDecision(m, c).0, ApplyDecision(k, c).0)
  {
    hide LedgerAlike;
    if c.txId in m.txs {
      assert Unstamped(m.txs[c.txId]) == Unstamped(k.txs[c.txId]);
    }
    TxsUpdated(m.txs, k.txs, c.txId, DecisionRecord(m, c), DecisionRecord(k, c));
  }

  lemma OutcomeAlike(m: Machine, k: Machine, c: ShardCommand)
    requires Alike(m, k)
    ensures ApplyOutcome(m, c).1 == ApplyOutcome(k, c).1 && Alike(ApplyOutcome(m, c).0, ApplyOutcome(k, c).0)
  {
    hide LedgerAlike, Settle;
    if c.txId in m.txs {
      assert Unstamped(m.txs[c.txId]) == Unstamped(k.txs[c.txId]);
      SettleAlike(m, k, c);
      if !Terminal(m.txs[c.txId].phase) {
        TxsUpdated(m.txs, k.txs, c.txId, ApplyOutcome(m, c).0.txs[c.txId], ApplyOutcome(k, c).0.txs[c.txId]);
      }
    }
  }

  /** One command: the same result, and machines alike again. */
  lemma CommandAlike(hash: Str -> nat, m: Machine, k: Machine, c: ShardCommand)
    requires Alike(m, k)
    ensures ApplyCommand(hash, m, c).1 == ApplyCommand(hash, k, c).1
    ensures Alike(ApplyCommand(hash, m, c).0, ApplyCommand(hash, k, c).0)
  {
    hide LedgerAlike, TxsAlike, L.Apply, ApplyPrepare, ApplyOutcome, DecisionRecord;
    ApplyAlike(hash, m.ledger, k.ledger, c.ledger);
    PrepareAlike(m, k, c);
    DecisionAlike(m, k, c);
    OutcomeAlike(m, k, c);
  }

  ghost function Results(hash: Str -> nat, m: Machine, commands: seq<ShardCommand>): seq<Result>
    decreases |commands|
  {
    if commands == [] then []
    else
      var n := |commands| - 1;
      Results(hash, m, commands[..n]) + [ApplyCommand(hash, ApplyAll(hash, m, commands[..n]), commands[n]).1]
  }

  lemma {:induction false} RunAlike(hash: Str -> nat, m: Machine, k: Machine, commands: seq<ShardCommand>)
    requires Alike(m, k)
    ensures Results(hash, m, commands) == Results(hash, k, commands)
    ensures Alike(ApplyAll(hash, m, commands), ApplyAll(hash, k, commands))
    decreases |commands|
  {
    hide ApplyCommand, Alike;
    if commands != [] {
      var n := |commands| - 1;
      RunAlike(hash, m, k, commands[..n]);
      CommandAlike(hash, ApplyAll(hash, m, commands[..n]), ApplyAll(hash, k, commands[..n]), commands[n]);
    }
  }

  /** Whatever is applied after a restore, results, balances, reservations, phases and decisions are those of the original. */
  lemma RestoredIndistinguishable(hash: Str -> nat, m: Machine, commands: seq<ShardCommand>)
    requires ShardFits(m)
    ensures GetShard(PutShard(m)).Some?
    ensures
      var r := GetShard(PutShard(m)).value.0;
      && Results(hash, r, commands) == Results(hash, m, commands)
      && Alike(ApplyAll(hash, r, commands), ApplyAll(hash, m, commands))
  {
    hide GetShard, PutShard, ShardFits, ApplyCommand;
    ShardReads(m, []);
    assert PutShard(m) + [] == PutShard(m);
    RunAlike(hash, Reborn(m), m, commands);
  }
}
