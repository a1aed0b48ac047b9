/**
 The state machine a shard's Raft group replicates: ledger commands and the steps of two-phase commit
 (shard/machine.go, shard/twopc.go).

 ApplyCommand is a function of the machine and the decoded command; the class Machine in ShardState.dfy runs
 it in place.
 */
module ShardMachine {
  import opened Bytes
  import opened Ledger
  import L = Ledger
  import opened LedgerInvariant

  type ShardId = Str

  datatype Phase = Unknown | Prepared | Committed | Aborted

  const OP_PREPARE: Byte := 1
  const OP_DECISION: Byte := 2
  const OP_OUTCOME: Byte := 3
  const OP_SINGLE: Byte := 4

  const ERR_SINGLE_USE: Str := Ascii("shard: transaction ids are single-use")
  const ERR_UNKNOWN_TX: Str := Ascii("shard: outcome for unknown transaction")
  const ERR_UNKNOWN_OP: Str := Ascii("shard: unknown op")

  datatype ShardCommand = ShardCommand(
    op: Byte,
    txId: TxId,
    ledger: Command,
    commit: bool,
    debit: bool,
    participants: seq<ShardId>,
    coordinator: ShardId)

  datatype TxRecord = TxRecord(
    id: TxId,
    phase: Phase,
    cmd: Command,
    debit: bool,
    participants: seq<ShardId>,
    coordinator: ShardId,
    decided: bool,
    commit: bool)

  datatype Machine = Machine(
    ledger: Ledger,
    txs: map<TxId, TxRecord>,
    results: map<Str, Result>,
    byIndex: map<nat, Result>)

  const NEW := Machine(EMPTY, map[], map[], map[])

  predicate Terminal(p: Phase) { p == Committed || p == Aborted }

  // ----- applying a command -----

  ghost function ApplySingle(hash: Str -> nat, m: Machine, c: ShardCommand): (Machine, Result) {
    var (l, r) := L.Apply(hash, m.ledger, c.ledger);
    (m.(ledger := l, results := if c.ledger.key == [] then m.results else m.results[c.ledger.key := r]), r)
  }

  /** The participant's vote: a YES reserves the funds, a NO is recorded as an abort. */
  ghost function Vote(m: Machine, c: ShardCommand): (Ledger, Result) {
    if c.debit then PrepareDebit(m.ledger, c.txId, c.ledger.from, c.ledger.amount)
    else (m.ledger, PrepareCredit(m.ledger, c.ledger.to, c.ledger.amount))
  }

  ghost function ApplyPrepare(m: Machine, c: ShardCommand): (Machine, Result) {
    if c.txId in m.txs && (m.txs[c.txId].decided || Terminal(m.txs[c.txId].phase)) then (m, Refused(ERR_SINGLE_USE))
    else if c.txId in m.txs && m.txs[c.txId].phase == Prepared then (m, Okay(0))
    else
      var (l, r) := Vote(m, c);
      var rec :=
        if r.ok then TxRecord(c.txId, Prepared, c.ledger, c.debit, c.participants, c.coordinator, false, false)
        else TxRecord(c.txId, Aborted, c.ledger, c.debit, [], [], true, false);
      (m.(ledger := l, txs := m.txs[c.txId := rec]), r)
  }

  function DecisionRecord(m: Machine, c: ShardCommand): TxRecord {
    var rec := if c.txId in m.txs then m.txs[c.txId]
               else TxRecord(c.txId, Unknown, c.ledger, c.debit, [], [], false, false);
    rec.(decided := true, commit := c.commit,
         participants := if |c.participants| > 0 then c.participants else rec.participants,
         coordinator := if c.coordinator != [] then c.coordinator else rec.coordinator)
  }

  function ApplyDecision(m: Machine, c: ShardCommand): (Machine, Result) {
    (m.(txs := m.txs[c.txId := DecisionRecord(m, c)]), Okay(0))
  }

  function OutcomeTimestamp(c: ShardCommand, rec: TxRecord): Timestamp {
    if c.ledger.ts != UNSTAMPED then c.ledger.ts else rec.cmd.ts
  }

  ghost function Settle(m: Machine, c: ShardCommand, rec: TxRecord): (Ledger, Result) {
    if !c.commit then AbortTx(m.ledger, c.txId)
    else if rec.debit then CommitDebit(m.ledger, c.txId, OutcomeTimestamp(c, rec))
    else CommitCredit(m.ledger, c.txId, rec.cmd.to, rec.cmd.amount, OutcomeTimestamp(c, rec))
  }

  ghost function ApplyOutcome(m: Machine, c: ShardCommand): (Machine, Result) {
    if c.txId !in m.txs then (m, Refused(ERR_UNKNOWN_TX))
    else if Terminal(m.txs[c.txId].phase) then (m, Okay(0))
    else
      var rec := m.txs[c.txId];
      var (l, r) := Settle(m, c, rec);
      var rec' := rec.(phase := if c.commit then Committed else Aborted, decided := true, commit := c.commit);
      (m.(ledger := l, txs := m.txs[c.txId := rec']), r)
  }

  ghost function ApplyCommand(hash: Str -> nat, m: Machine, c: ShardCommand): (Machine, Result) {
    if c.op == OP_SINGLE then ApplySingle(hash, m, c)
    else if c.op == OP_PREPARE then ApplyPrepare(m, c)
    else if c.op == OP_DECISION then ApplyDecision(m, c)
    else if c.op == OP_OUTCOME then ApplyOutcome(m, c)
    else (m, Refused(ERR_UNKNOWN_OP))
  }

  ghost function ApplyAt(hash: Str -> nat, m: Machine, index: nat, c: ShardCommand): (Machine, Result) {
    var (m', r) := ApplyCommand(hash, m, c);
    (m'.(byIndex := m'.byIndex[index := r]), r)
  }

  ghost function ApplyAll(hash: Str -> nat, m: Machine, commands: seq<ShardCommand>): Machine
    decreases |commands|
  {
    if commands == [] then m
    else ApplyCommand(hash, ApplyAll(hash, m, commands[..|commands| - 1]), commands[|commands| - 1]).0
  }

  /** A transaction's outcome, if this shard knows it. */
  function Decision(m: Machine, t: TxId): Option<bool> {
    if t in m.txs && m.txs[t].decided then Some(m.txs[t].commit) else None
  }

  // ----- what every command keeps -----

  ghost predicate Holds(m: Machine, t: TxId) {
    t in m.txs && m.txs[t].phase == Prepared && m.txs[t].debit
  }

  ghost predicate Posted(m: Machine, key: Str) {
    exists i :: 0 <= i < |m.ledger.history| && m.ledger.history[i].key == key
  }

  /** A reservation exists exactly for a prepared debit, for the same account and amount. */
  ghost predicate ReserveMatches(m: Machine, t: TxId) {
    && (t in m.ledger.reserves <==> Holds(m, t))
    && (t in m.ledger.reserves ==> m.ledger.reserves[t] == Reserve(t, m.txs[t].cmd.from, m.txs[t].cmd.amount))
  }

  /** A leg is posted only by the transaction's own commit. */
  ghost predicate LegsMatch(m: Machine, t: TxId) {
    && (CreditKey(t) in m.ledger.applied ==> t in m.txs && m.txs[t].phase == Committed && !m.txs[t].debit)
    && (Posted(m, DebitKey(t)) ==> t in m.txs && m.txs[t].phase == Committed && m.txs[t].debit)
  }

  ghost predicate RecordOk(m: Machine, t: TxId) {
    t in m.txs ==>
      && m.txs[t].id == t
      && (m.txs[t].phase != Prepared ==> m.txs[t].decided)
      && (m.txs[t].phase == Prepared && !m.txs[t].debit ==> m.txs[t].cmd.amount > 0 && m.txs[t].cmd.to in m.ledger.balances)
  }

  ghost predicate TxOk(m: Machine, t: TxId) {
    ReserveMatches(m, t) && LegsMatch(m, t) && RecordOk(m, t)
  }

  /** No key, client or internal, appears twice in the history. */
  ghost predicate Unique(history: seq<Transaction>) {
    forall i, j :: 0 <= i < j < |history| ==> history[i].key != history[j].key
  }

  ghost predicate MachineOk(m: Machine) {
    && LedgerOk(m.ledger)
    && Unique(m.ledger.history)
    && forall t :: TxOk(m, t)
  }

  /** A command about one transaction leaves the others' records, reservations and legs alone. */
  ghost predicate Untouched(m: Machine, m': Machine, t: TxId) {
    && (t in m'.txs <==> t in m.txs) && (t in m.txs ==> m'.txs[t] == m.txs[t])
    && (t in m'.ledger.reserves <==> t in m.ledger.reserves)
    && (t in m.ledger.reserves ==> m'.ledger.reserves[t] == m.ledger.reserves[t])
    && (CreditKey(t) in m'.ledger.applied ==> CreditKey(t) in m.ledger.applied)
    && (Posted(m', DebitKey(t)) ==> Posted(m, DebitKey(t)))
    && m.ledger.balances.Keys <= m'.ledger.balances.Keys
  }

  lemma UntouchedOk(m: Machine, m': Machine, t: TxId)
    requires TxOk(m, t) && Untouched(m, m', t)
    ensures TxOk(m', t)
  {
    hide CreditKey, DebitKey, Posted;
  }

  // ----- single commands -----

  lemma {:induction false} UniqueSnoc(h: seq<Transaction>, t: Transaction)
    requires Unique(h) && forall i :: 0 <= i < |h| ==> h[i].key != t.key
    ensures Unique(h + [t])
  {
  }

  lemma SingleOk(hash: Str -> nat, m: Machine, c: ShardCommand)
    requires MachineOk(m)
    ensures MachineOk(ApplySingle(hash, m, c).0)
  {
    hide LedgerOk, L.Apply, Unique, Posted, CreditKey, DebitKey, TxOk;
    var m' := ApplySingle(hash, m, c).0;
    ApplyOk(hash, m.ledger, c.ledger);
    SingleEffect(hash, m.ledger, c.ledger);
    SingleHistory(hash, m.ledger, c.ledger);
    forall t
      ensures TxOk(m', t)
    {
      SingleLegs(hash, m, m', c, t);
      UntouchedOk(m, m', t);
    }
  }

  /** A client command touches no reservation, loses no account, and writes one client key. */
  lemma SingleEffect(hash: Str -> nat, l: Ledger, c: Command)
    ensures
      var l' := L.Apply(hash, l, c).0;
      && l'.reserves == l.reserves && l.balances.Keys <= l'.balances.Keys
      && (forall k :: k in l'.applied ==> k in l.applied || (k == c.key && ClientKey(k)))
      && (forall k :: k in l.applied ==> k in l'.applied)
      && (|| l'.history == l.history
          || (exists t: Transaction ::
                t.key == c.key && l'.history == l.history + [t] && ClientKey(c.key) && c.key !in l.applied))
  {
    hide Execute, HasPrefix, Request;
    ExecuteShape(l, c);
  }

  lemma SingleHistory(hash: Str -> nat, l: Ledger, c: Command)
    requires LedgerOk(l) && Unique(l.history)
    ensures Unique(L.Apply(hash, l, c).0.history)
  {
    hide L.Apply, HasPrefix, Covered, Audited, DebitLike;
    SingleEffect(hash, l, c);
    var l' := L.Apply(hash, l, c).0;
    if l'.history != l.history {
      var t: Transaction :| t.key == c.key && l'.history == l.history + [t] && ClientKey(c.key) && c.key !in l.applied;
      ClientNotDebit(c.key);
      UniqueSnoc(l.history, t);
    }
  }

  lemma SingleLegs(hash: Str -> nat, m: Machine, m': Machine, c: ShardCommand, t: TxId)
    requires m'.ledger == L.Apply(hash, m.ledger, c.ledger).0
    ensures CreditKey(t) in m'.ledger.applied ==> CreditKey(t) in m.ledger.applied
    ensures Posted(m', DebitKey(t)) ==> Posted(m, DebitKey(t))
  {
    hide L.Apply, HasPrefix, CreditKey, DebitKey;
    SingleEffect(hash, m.ledger, c.ledger);
    KeyShapes(t, t);
    if Posted(m', DebitKey(t)) {
      var i :| 0 <= i < |m'.ledger.history| && m'.ledger.history[i].key == DebitKey(t);
      assert i < |m.ledger.history| && m.ledger.history[i].key == DebitKey(t);
    }
  }

  // ----- prepare -----

  lemma PrepareOk(m: Machine, c: ShardCommand)
    requires MachineOk(m)
    ensures MachineOk(ApplyPrepare(m, c).0)
  {
    hide LedgerOk, Unique, Posted, CreditKey, DebitKey, PrepareDebit, TxOk;
    var m' := ApplyPrepare(m, c).0;
    if m' != m {
      PrepareFresh(m, c.txId);
      PrepareDebitOk(m.ledger, c.txId, c.ledger.from, c.ledger.amount);
      HoldEffect(m.ledger, c.txId, c.ledger.from, c.ledger.amount);
      SamePosted(m, m');
      VoteOk(m, c);
      forall t | t != c.txId
        ensures TxOk(m', t)
      {
        UntouchedOk(m, m', t);
      }
    }
  }

  /** An undecided record is a prepared one, so a prepare that reaches the vote finds no record. */
  lemma PrepareFresh(m: Machine, t: TxId)
    requires MachineOk(m)
    ensures t in m.txs ==> m.txs[t].decided || m.txs[t].phase == Prepared
    ensures t !in m.txs ==> t !in m.ledger.reserves
  {
    hide LedgerOk, Unique, LegsMatch;
    assert TxOk(m, t);
  }

  lemma VoteOk(m: Machine, c: ShardCommand)
    requires MachineOk(m) && c.txId !in m.txs
    ensures TxOk(ApplyPrepare(m, c).0, c.txId)
  {
    hide LedgerOk, Unique, Posted, CreditKey, DebitKey, PrepareDebit;
    assert TxOk(m, c.txId);
    HoldEffect(m.ledger, c.txId, c.ledger.from, c.ledger.amount);
    SamePosted(m, ApplyPrepare(m, c).0);
  }

  lemma HoldEffect(l: Ledger, tx: TxId, a: AccountId, amount: Money)
    requires tx !in l.reserves
    ensures
      var (l', r) := PrepareDebit(l, tx, a, amount);
      && l' == l.(reserves := l'.reserves)
      && l'.reserves == if r.ok then l.reserves[tx := Reserve(tx, a, amount)] else l.reserves
  {
    hide Available;
  }

  lemma SamePosted(m: Machine, m': Machine)
    requires m'.ledger.history == m.ledger.history
    ensures forall key :: Posted(m', key) == Posted(m, key)
  {
  }

  // ----- decision -----

  lemma DecisionOk(m: Machine, c: ShardCommand)
    requires MachineOk(m)
    ensures MachineOk(ApplyDecision(m, c).0)
  {
    hide LedgerOk, Unique, Posted, CreditKey, DebitKey, TxOk;
    var m' := ApplyDecision(m, c).0;
    SamePosted(m, m');
    DecidedOk(m, c);
    forall t | t != c.txId
      ensures TxOk(m', t)
    {
      UntouchedOk(m, m', t);
    }
  }

  lemma DecidedOk(m: Machine, c: ShardCommand)
    requires TxOk(m, c.txId)
    ensures TxOk(ApplyDecision(m, c).0, c.txId)
  {
    hide Posted, CreditKey, DebitKey;
    SamePosted(m, ApplyDecision(m, c).0);
  }

  // ----- outcome -----

  lemma OutcomeOk(m: Machine, c: ShardCommand)
    requires MachineOk(m)
    ensures MachineOk(ApplyOutcome(m, c).0)
  {
    hide MachineOk, CommitDebit, CommitCredit, AbortTx;
    if c.txId in m.txs && !Terminal(m.txs[c.txId].phase) {
      if !c.commit {
        AbortedOk(m, c);
      } else if m.txs[c.txId].debit {
        DebitedOk(m, c);
      } else {
        CreditedOk(m, c);
      }
    }
  }

  lemma AbortedOk(m: Machine, c: ShardCommand)
    requires MachineOk(m) && c.txId in m.txs && !Terminal(m.txs[c.txId].phase) && !c.commit
    ensures MachineOk(ApplyOutcome(m, c).0)
  {
    hide LedgerOk, Unique, Posted, CreditKey, DebitKey, Available, TxOk;
    var m' := ApplyOutcome(m, c).0;
    AbortOk(m.ledger, c.txId);
    SamePosted(m, m');
    assert TxOk(m, c.txId);
    AbortedTx(m, m', c.txId);
    forall t | t != c.txId
      ensures TxOk(m', t)
    {
      UntouchedOk(m, m', t);
    }
  }

  /** The transaction that was settled: its reservation is gone and its phase is final. */
  lemma AbortedTx(m: Machine, m': Machine, t: TxId)
    requires TxOk(m, t) && t in m.txs && !Terminal(m.txs[t].phase)
    requires t in m'.txs && m'.txs[t].phase == Aborted && m'.txs[t].decided && m'.txs[t].id == m.txs[t].id
    requires t !in m'.ledger.reserves && m'.ledger.applied == m.ledger.applied
    requires Posted(m', DebitKey(t)) == Posted(m, DebitKey(t))
    ensures TxOk(m', t)
  {
    hide Posted, CreditKey, DebitKey;
  }

  lemma CommittedTx(m: Machine, m': Machine, t: TxId)
    requires TxOk(m, t) && t in m.txs && !Terminal(m.txs[t].phase)
    requires t in m'.txs && m'.txs[t].phase == Committed && m'.txs[t].decided && m'.txs[t].id == m.txs[t].id
    requires m'.txs[t].debit == m.txs[t].debit && t !in m'.ledger.reserves
    requires CreditKey(t) in m'.ledger.applied ==> !m.txs[t].debit
    requires Posted(m', DebitKey(t)) ==> m.txs[t].debit
    ensures TxOk(m', t)
  {
    hide Posted, CreditKey, DebitKey;
  }

  lemma DebitEffect(l: Ledger, tx: TxId, ts: Timestamp)
    ensures
      var l' := CommitDebit(l, tx, ts).0;
      && l'.applied == l.applied && l'.digests == l.digests
      && if tx in l.reserves then
           && l'.reserves == l.reserves - {tx}
           && l'.balances.Keys == l.balances.Keys + {l.reserves[tx].account}
           && (exists t: Transaction :: t.key == DebitKey(tx) && l'.history == l.history + [t])
         else l' == l
  {
    hide Wrap, DebitKey;
    if tx in l.reserves {
      var r := l.reserves[tx];
      var t := Transaction(l.number + 1, OP_TRANSFER, DebitKey(tx), [Entry(r.account, Negate(r.amount))], ts);
      assert t.key == DebitKey(tx) && CommitDebit(l, tx, ts).0.history == l.history + [t];
    }
  }

  lemma CreditEffect(l: Ledger, tx: TxId, a: AccountId, amount: Money, ts: Timestamp)
    ensures
      var l' := CommitCredit(l, tx, a, amount, ts).0;
      && l'.reserves == l.reserves && l'.digests == l.digests && l.balances.Keys == l'.balances.Keys
      && (CreditKey(tx) !in l.applied && a in l.balances && !Overflows(l, a, amount) <==> l' != l)
      && (l' != l ==>
            && l'.applied.Keys == l.applied.Keys + {CreditKey(tx)} && CreditKey(tx) !in l.applied
            && (exists t: Transaction :: t.key == CreditKey(tx) && l'.history == l.history + [t]))
  {
    hide Wrap, CreditKey, Overflows;
    var l' := CommitCredit(l, tx, a, amount, ts).0;
    if CreditKey(tx) !in l.applied && a in l.balances && !Overflows(l, a, amount) {
      var t := Transaction(l.number + 1, OP_TRANSFER, CreditKey(tx), [Entry(a, amount)], ts);
      assert t.key == CreditKey(tx) && l'.history == l.history + [t];
      assert CreditKey(tx) in l'.applied;
    }
  }

  /** Posting one more leg under key. */
  lemma PostedSnoc(m: Machine, m': Machine, x: Transaction, key: Str)
    requires m'.ledger.history == m.ledger.history + [x]
    ensures Posted(m', key) <==> Posted(m, key) || key == x.key
  {
    var n := |m.ledger.history|;
    if Posted(m, key) {
      var i :| 0 <= i < n && m.ledger.history[i].key == key;
      assert m'.ledger.history[i].key == key;
    }
    assert m'.ledger.history[n] == x;
    if Posted(m', key) && key != x.key {
      var i :| 0 <= i < n + 1 && m'.ledger.history[i].key == key;
      assert m.ledger.history[i].key == key;
    }
  }

  lemma DebitedOk(m: Machine, c: ShardCommand)
    requires MachineOk(m) && c.txId in m.txs && !Terminal(m.txs[c.txId].phase) && c.commit && m.txs[c.txId].debit
    ensures MachineOk(ApplyOutcome(m, c).0)
  {
    hide LedgerOk, Posted, CreditKey, DebitKey, CommitDebit, TxOk, Unique;
    var tx := c.txId;
    var ts := OutcomeTimestamp(c, m.txs[tx]);
    var m' := ApplyOutcome(m, c).0;
    assert TxOk(m, tx);
    CommitDebitOk(m.ledger, tx, ts);
    DebitEffect(m.ledger, tx, ts);
    NotYetPosted(m, tx);
    DebitedHistory(m, m', tx);
    CommittedTx(m, m', tx);
    forall t | t != tx
      ensures TxOk(m', t)
    {
      UntouchedOk(m, m', t);
    }
  }

  lemma NotYetPosted(m: Machine, t: TxId)
    requires TxOk(m, t) && t in m.txs && !Terminal(m.txs[t].phase)
    ensures CreditKey(t) !in m.ledger.applied && !Posted(m, DebitKey(t))
    ensures t in m.ledger.reserves <==> Holds(m, t)
  {
    hide Posted, CreditKey, DebitKey;
  }

  lemma DebitedHistory(m: Machine, m': Machine, tx: TxId)
    requires Unique(m.ledger.history) && !Posted(m, DebitKey(tx))
    requires m'.ledger.history == m.ledger.history
      || exists x: Transaction :: x.key == DebitKey(tx) && m'.ledger.history == m.ledger.history + [x]
    ensures Unique(m'.ledger.history)
    ensures forall t :: Posted(m', DebitKey(t)) ==> Posted(m, DebitKey(t)) || t == tx
  {
    hide CreditKey, DebitKey;
    if m'.ledger.history == m.ledger.history {
      SamePosted(m, m');
    } else {
      var x: Transaction :| x.key == DebitKey(tx) && m'.ledger.history == m.ledger.history + [x];
      UniqueSnoc(m.ledger.history, x);
      forall t
        ensures Posted(m', DebitKey(t)) ==> Posted(m, DebitKey(t)) || t == tx
      {
        PostedSnoc(m, m', x, DebitKey(t));
        KeyShapes(t, tx);
      }
    }
  }

  lemma CreditedOk(m: Machine, c: ShardCommand)
    requires MachineOk(m) && c.txId in m.txs && !Terminal(m.txs[c.txId].phase) && c.commit && !m.txs[c.txId].debit
    ensures MachineOk(ApplyOutcome(m, c).0)
  {
    hide LedgerOk, Posted, CreditKey, DebitKey, CommitCredit, Overflows, TxOk, Unique;
    var tx, rec := c.txId, m.txs[c.txId];
    var ts := OutcomeTimestamp(c, rec);
    var m' := ApplyOutcome(m, c).0;
    assert TxOk(m, tx);
    CommitCreditOk(m.ledger, tx, rec.cmd.to, rec.cmd.amount, ts);
    CreditEffect(m.ledger, tx, rec.cmd.to, rec.cmd.amount, ts);
    NotYetPosted(m, tx);
    CreditedHistory(m, m', tx);
    CommittedTx(m, m', tx);
    forall t | t != tx
      ensures TxOk(m', t)
    {
      KeyShapes(t, tx);
      UntouchedOk(m, m', t);
    }
  }

  lemma CreditedHistory(m: Machine, m': Machine, tx: TxId)
    requires LedgerOk(m.ledger) && Unique(m.ledger.history) && CreditKey(tx) !in m.ledger.applied
    requires m'.ledger.history == m.ledger.history
      || exists x: Transaction :: x.key == CreditKey(tx) && m'.ledger.history == m.ledger.history + [x]
    ensures Unique(m'.ledger.history)
    ensures forall t :: Posted(m', DebitKey(t)) ==> Posted(m, DebitKey(t))
  {
    hide CreditKey, DebitKey, LedgerOk;
    if m'.ledger.history == m.ledger.history {
      SamePosted(m, m');
    } else {
      var x: Transaction :| x.key == CreditKey(tx) && m'.ledger.history == m.ledger.history + [x];
      CreditFresh(m, tx);
      UniqueSnoc(m.ledger.history, x);
      forall t
        ensures Posted(m', DebitKey(t)) ==> Posted(m, DebitKey(t))
      {
        PostedSnoc(m, m', x, DebitKey(t));
        KeyShapes(t, tx);
      }
    }
  }

  lemma CreditFresh(m: Machine, tx: TxId)
    requires LedgerOk(m.ledger) && CreditKey(tx) !in m.ledger.applied
    ensures forall i :: 0 <= i < |m.ledger.history| ==> m.ledger.history[i].key != CreditKey(tx)
  {
    hide Covered, Audited, CreditKey, DebitLike;
    CreditNotDebit(tx);
  }

  // ----- every run -----

  lemma MachineStepOk(hash: Str -> nat, m: Machine, c: ShardCommand)
    requires MachineOk(m)
    ensures MachineOk(ApplyCommand(hash, m, c).0)
  {
    hide MachineOk, ApplySingle, ApplyPrepare, ApplyDecision, ApplyOutcome;
    SingleOk(hash, m, c);
    PrepareOk(m, c);
    DecisionOk(m, c);
    OutcomeOk(m, c);
  }

  lemma {:induction false} MachineRunsOk(hash: Str -> nat, commands: seq<ShardCommand>)
    ensures MachineOk(ApplyAll(hash, NEW, commands))
    decreases |commands|
  {
    hide MachineOk, ApplyCommand;
    if commands == [] {
      NewOk();
    } else {
      MachineRunsOk(hash, commands[..|commands| - 1]);
      MachineStepOk(hash, ApplyAll(hash, NEW, commands[..|commands| - 1]), commands[|commands| - 1]);
    }
  }

  lemma NewOk()
    ensures MachineOk(NEW)
  {
    hide LedgerOk;
    EmptyOk();
  }

  ghost predicate Settled(m: Machine, m': Machine, t: TxId) {
    t in m.txs && Terminal(m.txs[t].phase) ==>
      && t in m'.txs && m'.txs[t].phase == m.txs[t].phase
      && m'.txs[t].cmd == m.txs[t].cmd && m'.txs[t].debit == m.txs[t].debit
  }

  lemma StepFinal(hash: Str -> nat, m: Machine, c: ShardCommand, t: TxId)
    ensures Settled(m, ApplyCommand(hash, m, c).0, t)
  {
    hide L.Apply, Vote, Settle;
  }

  /** Terminal phases are final, whatever is applied afterwards. */
  lemma {:induction false} TerminalFinal(hash: Str -> nat, m: Machine, commands: seq<ShardCommand>, t: TxId)
    ensures Settled(m, ApplyAll(hash, m, commands), t)
    decreases |commands|
  {
    hide ApplyCommand;
    if commands != [] {
      TerminalFinal(hash, m, commands[..|commands| - 1], t);
      StepFinal(hash, ApplyAll(hash, m, commands[..|commands| - 1]), commands[|commands| - 1], t);
    }
  }

  /** After every command sequence, a reservation stands for a prepared debit, and only for one. */
  lemma ReservationsExact(hash: Str -> nat, commands: seq<ShardCommand>, t: TxId)
    ensures
      var m := ApplyAll(hash, NEW, commands);
      && (t in m.ledger.reserves <==> t in m.txs && m.txs[t].phase == Prepared && m.txs[t].debit)
      && (t in m.ledger.reserves ==> m.ledger.reserves[t] == Reserve(t, m.txs[t].cmd.from, m.txs[t].cmd.amount))
  {
    hide LedgerOk, ApplyAll, LegsMatch;
    MachineRunsOk(hash, commands);
    assert TxOk(ApplyAll(hash, NEW, commands), t);
  }

  /** And no key was recorded twice. */
  lemma HistoryOnce(hash: Str -> nat, commands: seq<ShardCommand>, i: nat, j: nat)
    requires
      var h := ApplyAll(hash, NEW, commands).ledger.history;
      i < |h| && j < |h| && h[i].key == h[j].key
    ensures i == j
  {
    hide LedgerOk, ApplyAll, LegsMatch;
    MachineRunsOk(hash, commands);
  }

  /**
   A decision-only record carries no promise, and the source says an outcome then moves no money.  That
   holds for a debit record; a commit on a credit record posts whenever the account can take it.
   */
  lemma UnpreparedOutcome(m: Machine, c: ShardCommand)
    requires MachineOk(m) && c.txId in m.txs && m.txs[c.txId].phase == Unknown && c.commit
    ensures
      var rec := m.txs[c.txId];
      ApplyOutcome(m, c).0.ledger != m.ledger <==>
        !rec.debit && rec.cmd.to in m.ledger.balances && !Overflows(m.ledger, rec.cmd.to, rec.cmd.amount)
  {
    hide LedgerOk, Unique, CreditKey, Overflows, Posted, CommitCredit, DebitKey;
    var rec := m.txs[c.txId];
    assert TxOk(m, c.txId);
    NotYetPosted(m, c.txId);
    CreditEffect(m.ledger, c.txId, rec.cmd.to, rec.cmd.amount, OutcomeTimestamp(c, rec));
  }

  /** So a decision and an outcome alone, with no prepare, credit an account. */
  lemma UnpreparedCredit(hash: Str -> nat, m: Machine, d: ShardCommand, o: ShardCommand)
    requires MachineOk(m) && d.txId !in m.txs && d.op == OP_DECISION && o.op == OP_OUTCOME && o.txId == d.txId
    requires o.commit && !d.debit && d.ledger.to in m.ledger.balances
    requires 0 < d.ledger.amount <= MAX_MONEY - m.ledger.balances[d.ledger.to]
    ensures
      var m' := ApplyAll(hash, m, [d, o]);
      m'.ledger.balances == m.ledger.balances[d.ledger.to := m.ledger.balances[d.ledger.to] + d.ledger.amount]
  {
    hide LedgerOk, Unique, CreditKey, Posted, DebitKey, Wrap, ApplyAll, CommitCredit;
    var mid := ApplyDecision(m, d).0;
    assert ApplyAll(hash, m, [d, o]) == ApplyOutcome(mid, o).0 by { TwoCommands(hash, m, d, o); }
    DecisionOk(m, d);
    assert TxOk(mid, d.txId);
    NotYetPosted(mid, d.txId);
    CreditPosts(m.ledger, d.txId, d.ledger.to, d.ledger.amount, OutcomeTimestamp(o, mid.txs[d.txId]));
  }

  lemma TwoCommands(hash: Str -> nat, m: Machine, d: ShardCommand, o: ShardCommand)
    requires d.op == OP_DECISION && o.op == OP_OUTCOME
    ensures ApplyAll(hash, m, [d, o]) == ApplyOutcome(ApplyDecision(m, d).0, o).0
  {
    hide DecisionRecord, Settle;
    assert [d, o][..1] == [d] && [d][..0] == [];
    assert ApplyAll(hash, m, [d][..0]) == m;
    assert ApplyAll(hash, m, [d]) == ApplyDecision(m, d).0;
  }

  lemma CreditPosts(l: Ledger, tx: TxId, a: AccountId, amount: Money, ts: Timestamp)
    requires LedgerOk(l) && CreditKey(tx) !in l.applied && a in l.balances && 0 < amount <= MAX_MONEY - l.balances[a]
    ensures CommitCredit(l, tx, a, amount, ts).0.balances == l.balances[a := l.balances[a] + amount]
  {
    hide LedgerOk, CreditKey, Wrap, Overflows;
    BalanceNonNegative(l, a);
    GuardExact(l, a, amount);
  }

  lemma BalanceNonNegative(l: Ledger, a: AccountId)
    requires LedgerOk(l) && a in l.balances
    ensures l.balances[a] >= 0
  {
  }
}
