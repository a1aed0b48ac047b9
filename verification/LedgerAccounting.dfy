/**
 Conservation inside one ledger: only opens, deposits and withdrawals, and the one-legged postings of
 cross-shard transfers, change the total.
 */
module LedgerAccounting {
  import opened Bytes
  import opened Sums
  import opened Ledger
  import opened LedgerInvariant

  ghost function Value(m: map<AccountId, Money>): AccountId -> int {
    a => if a in m then m[a] else 0
  }

  /** The sum of all balances, as a mathematical integer. */
  ghost function Total(l: Ledger): int { Sum(l.balances.Keys, Value(l.balances)) }

  ghost function EntryTotal(entries: seq<Entry>): int {
    if entries == [] then 0 else EntryTotal(entries[..|entries| - 1]) + entries[|entries| - 1].amount
  }

  /** Opens plus deposits minus withdrawals. */
  ghost function Boundary(history: seq<Transaction>): int {
    if history == [] then 0
    else
      var t := history[|history| - 1];
      Boundary(history[..|history| - 1]) + if t.op == OP_TRANSFER then 0 else EntryTotal(t.entries)
  }

  ghost function Drift(l: Ledger): int { Total(l) - Boundary(l.history) }

  lemma PaidTotal(l: Ledger, l': Ledger, a: AccountId, delta: int)
    requires Paid(l, l', a, delta)
    ensures Total(l') == Total(l) + delta
  {
    var f, g := Value(l.balances), Value(l'.balances);
    if a in l.balances {
      assert l'.balances.Keys == l.balances.Keys;
      SumChange(l.balances.Keys, f, g, a);
    } else {
      assert l'.balances.Keys == l.balances.Keys + {a};
      SumPut(l.balances.Keys, g, a);
      SumSame(l.balances.Keys, f, g);
    }
  }

  lemma RecordBoundary(l: Ledger, op: Byte, key: Str, ts: Timestamp, entries: seq<Entry>)
    ensures Boundary(Record(l, op, key, ts, entries).history)
         == Boundary(l.history) + if op == OP_TRANSFER then 0 else EntryTotal(entries)
  {
    var h := Record(l, op, key, ts, entries).history;
    assert h[..|h| - 1] == l.history;
  }

  lemma OneEntry(a: AccountId, x: Money)
    ensures EntryTotal([Entry(a, x)]) == x
  {
    assert EntryTotal([Entry(a, x)][..0]) == 0;
  }

  lemma OpenDrift(l: Ledger, c: Command)
    requires Covered(l) && c.op != OP_TRANSFER
    ensures Drift(Open(l, c).0) == Drift(l) && Drift(Deposit(l, c).0) == Drift(l)
  {
    hide Total, Boundary, EntryTotal, Wrap, Overflows, Reserved;
    var l1, l2 := Open(l, c).0, Deposit(l, c).0;
    var e := [Entry(c.to, c.amount)];
    OneEntry(c.to, c.amount);
    if l1 != l {
      PaidTotal(l, l1, c.to, c.amount);
      RecordBoundary(l.(balances := l1.balances), c.op, c.key, c.ts, e);
    }
    if l2 != l {
      GuardExact(l, c.to, c.amount);
      PaidTotal(l, l2, c.to, c.amount);
      RecordBoundary(l.(balances := l2.balances), c.op, c.key, c.ts, e);
    }
  }

  lemma WithdrawDrift(l: Ledger, c: Command)
    requires Covered(l) && c.op != OP_TRANSFER
    ensures Drift(Withdraw(l, c).0) == Drift(l)
  {
    hide Total, Boundary, EntryTotal, Wrap, Available, Reserved;
    var l' := Withdraw(l, c).0;
    if l' != l {
      ReservedBounds(l, c.from);
      PaidTotal(l, l', c.from, 0 - c.amount);
      OneEntry(c.from, 0 - c.amount);
      RecordBoundary(l.(balances := l'.balances), c.op, c.key, c.ts, [Entry(c.from, 0 - c.amount)]);
    }
  }

  lemma TransferDrift(l: Ledger, c: Command)
    requires Covered(l) && c.op == OP_TRANSFER
    ensures Drift(Transfer(l, c).0) == Drift(l)
  {
    hide Total, Boundary, EntryTotal, Wrap, Available, Overflows, Reserved;
    var l' := Transfer(l, c).0;
    if l' != l {
      ReservedBounds(l, c.from);
      GuardExact(l, c.to, c.amount);
      var half := Move(l, c.from, 0 - c.amount);
      PaidTotal(l, half, c.from, 0 - c.amount);
      PaidTotal(half, l', c.to, c.amount);
      RecordBoundary(l.(balances := l'.balances), c.op, c.key, c.ts,
                     [Entry(c.from, 0 - c.amount), Entry(c.to, c.amount)]);
    }
  }

  /** A client command moves the total by exactly what it records at the boundary. */
  lemma ApplyDrift(hash: Str -> nat, l: Ledger, c: Command)
    requires LedgerOk(l)
    ensures Drift(Apply(hash, l, c).0) == Drift(l)
  {
    hide Covered, Audited, KeysOnce, Open, Deposit, Withdraw, Transfer, HasPrefix, Request, Drift;
    if c.op == OP_TRANSFER {
      TransferDrift(l, c);
    } else {
      OpenDrift(l, c);
      WithdrawDrift(l, c);
    }
    DriftIgnoresResults(Execute(l, c).0, Apply(hash, l, c).0);
    DriftIgnoresResults(l, Apply(hash, l, c).0);
  }

  lemma DriftIgnoresResults(l: Ledger, l': Ledger)
    ensures l'.balances == l.balances && l'.history == l.history ==> Drift(l') == Drift(l)
  {
  }

  /** A debit leg takes exactly the reserved amount out of the total. */
  lemma CommitDebitDrift(l: Ledger, tx: TxId, ts: Timestamp)
    requires LedgerOk(l)
    ensures Drift(CommitDebit(l, tx, ts).0) == Drift(l) - if tx in l.reserves then l.reserves[tx].amount else 0
  {
    hide Total, Boundary, Audited, KeysOnce, Wrap, Reserved, DebitKey;
    if tx in l.reserves {
      var r := l.reserves[tx];
      var l' := CommitDebit(l, tx, ts).0;
      var free := l.(reserves := l.reserves - {tx});
      ReservedBounds(l, r.account);
      PaidTotal(free, l', r.account, 0 - r.amount);
      TotalIgnoresReserves(l, free);
      RecordBoundary(free.(balances := l'.balances), OP_TRANSFER, DebitKey(tx), ts, [Entry(r.account, 0 - r.amount)]);
    }
  }

  lemma TotalIgnoresReserves(l: Ledger, l': Ledger)
    requires l'.balances == l.balances
    ensures Total(l') == Total(l)
  {
  }

  /** A credit leg that is posted adds exactly its amount. */
  lemma CommitCreditDrift(l: Ledger, tx: TxId, a: AccountId, amount: Money, ts: Timestamp)
    requires LedgerOk(l)
    ensures
      var l' := CommitCredit(l, tx, a, amount, ts).0;
      Drift(l') == Drift(l) + if CreditKey(tx) in l'.applied && CreditKey(tx) !in l.applied then amount else 0
  {
    hide Total, Boundary, Audited, KeysOnce, Wrap, Reserved, CreditKey, Overflows;
    var l' := CommitCredit(l, tx, a, amount, ts).0;
    if l' != l {
      GuardExact(l, a, amount);
      PaidTotal(l, l', a, amount);
      RecordBoundary(l.(balances := l'.balances), OP_TRANSFER, CreditKey(tx), ts, [Entry(a, amount)]);
    }
  }
}
