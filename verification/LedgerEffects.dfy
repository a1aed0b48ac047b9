/**
 What each client command does, in plain integers: when it is accepted, which accounts change and by how much, and
 what the client is told.  Keys used before are the subject of LedgerOnce.dfy.
 */
module LedgerEffects {
  import opened Bytes
  import opened Ledger
  import opened LedgerInvariant

  /** A key the ledger has not seen. */
  ghost predicate NewKey(l: Ledger, key: Str) { ClientKey(key) && key !in l.applied }

  /** What an account could spend. */
  ghost function Free(l: Ledger, a: AccountId): int { Get(l.balances, a) - Reserved(l.reserves, a) }

  /** One transaction more in the history, its result kept under its key, and the holds as they were. */
  ghost predicate Booked(l: Ledger, l': Ledger, c: Command, r: Result, entries: seq<Entry>) {
    && l'.history == l.history + [Transaction(|l.history| + 1, c.op, c.key, entries, c.ts)]
    && l'.reserves == l.reserves && l'.applied == l.applied[c.key := r]
  }

  /** Refused for good: only the refusal is kept. */
  ghost predicate TurnedDown(l: Ledger, l': Ledger, c: Command, r: Result) {
    && l'.balances == l.balances && l'.history == l.history && l'.reserves == l.reserves
    && l'.applied == l.applied[c.key := r]
  }

  /** Every account but the new one keeps its balance. */
  lemma OpenExactly(hash: Str -> nat, l: Ledger, c: Command)
    requires LedgerOk(l) && NewKey(l, c.key) && c.op == OP_OPEN
    ensures
      var (l', r) := Apply(hash, l, c);
      && (r.ok <==> c.to !in l.balances && 0 <= c.amount)
      && (r.ok ==> l'.balances == l.balances[c.to := c.amount] && r.balance == c.amount
                   && Booked(l, l', c, r, [Entry(c.to, c.amount)]))
      && (!r.ok ==> TurnedDown(l, l', c, r) && r.balance == 0)
  {
    hide Covered, KeysOnce, HasPrefix, Request;
  }

  /** The payee gains the amount if its balance still fits; nobody else is touched. */
  lemma DepositExactly(hash: Str -> nat, l: Ledger, c: Command)
    requires LedgerOk(l) && NewKey(l, c.key) && c.op == OP_DEPOSIT
    ensures
      var (l', r) := Apply(hash, l, c);
      && (r.ok <==> 0 < c.amount && c.to in l.balances && l.balances[c.to] + c.amount <= MAX_MONEY)
      && (r.ok ==> l'.balances == l.balances[c.to := l.balances[c.to] + c.amount] && r.balance == l.balances[c.to] + c.amount
                   && Booked(l, l', c, r, [Entry(c.to, c.amount)]))
      && (!r.ok ==> TurnedDown(l, l', c, r) && r.balance == 0)
  {
    hide Covered, KeysOnce, HasPrefix, Request, Overflows, Wrap;
    SpendBounds(l, c.to);
    GuardExact(l, c.to, c.amount);
  }

  /** The payer loses the amount if it is free to spend; nobody else is touched. */
  lemma WithdrawExactly(hash: Str -> nat, l: Ledger, c: Command)
    requires LedgerOk(l) && NewKey(l, c.key) && c.op == OP_WITHDRAW
    ensures
      var (l', r) := Apply(hash, l, c);
      && (r.ok <==> 0 < c.amount && c.from in l.balances && c.amount <= Free(l, c.from))
      && (r.ok ==> l'.balances == l.balances[c.from := l.balances[c.from] - c.amount]
                   && r.balance == l.balances[c.from] - c.amount
                   && Booked(l, l', c, r, [Entry(c.from, 0 - c.amount)]))
      && (!r.ok ==> TurnedDown(l, l', c, r)
                    && r.balance == if 0 < c.amount && c.from in l.balances then Free(l, c.from) else 0)
  {
    hide Covered, KeysOnce, HasPrefix, Request, Available, Reserved;
    SpendBounds(l, c.from);
  }

  /** The amount moves from payer to payee if the one can spend it and the other can take it. */
  lemma TransferExactly(hash: Str -> nat, l: Ledger, c: Command)
    requires LedgerOk(l) && NewKey(l, c.key) && c.op == OP_TRANSFER
    ensures
      var (l', r) := Apply(hash, l, c);
      && (r.ok <==> 0 < c.amount && c.from != c.to && c.from in l.balances && c.to in l.balances
                    && c.amount <= Free(l, c.from) && l.balances[c.to] + c.amount <= MAX_MONEY)
      && (r.ok ==> l'.balances == l.balances[c.from := l.balances[c.from] - c.amount][c.to := l.balances[c.to] + c.amount]
                   && r.balance == l.balances[c.from] - c.amount
                   && Booked(l, l', c, r, [Entry(c.from, 0 - c.amount), Entry(c.to, c.amount)]))
      && (!r.ok ==> TurnedDown(l, l', c, r))
  {
    hide LedgerOk, HasPrefix, Request, Reserved, Transfer;
    SpendBounds(l, c.from);
    TransferPosts(l, c);
  }

  lemma TransferPosts(l: Ledger, c: Command)
    requires LedgerOk(l)
    ensures
      var (l', r) := Transfer(l, c);
      && (r.ok <==> 0 < c.amount && c.from != c.to && c.from in l.balances && c.to in l.balances
                    && c.amount <= Free(l, c.from) && l.balances[c.to] + c.amount <= MAX_MONEY)
      && l'.reserves == l.reserves && l'.applied == l.applied
      && (r.ok ==> l'.history == l.history + [Transaction(|l.history| + 1, c.op, c.key, Legs(c), c.ts)]
                   && r.balance == Get(l'.balances, c.from) == l.balances[c.from] - c.amount
                   && Get(l'.balances, c.to) == l.balances[c.to] + c.amount
                   && l'.balances == l.balances[c.from := Get(l'.balances, c.from)][c.to := Get(l'.balances, c.to)])
      && (!r.ok ==> l'.balances == l.balances && l'.history == l.history)
  {
    hide Covered, KeysOnce, Available, Reserved, Overflows;
    SpendBounds(l, c.from);
    SpendBounds(l, c.to);
    GuardExact(l, c.to, c.amount);
  }

  function Legs(c: Command): seq<Entry> { [Entry(c.from, Negate(c.amount)), Entry(c.to, c.amount)] }

  lemma SpendBounds(l: Ledger, a: AccountId)
    requires LedgerOk(l)
    ensures 0 <= Free(l, a) <= Get(l.balances, a) && (a in l.balances ==> Available(l, a) == Free(l, a))
  {
    hide Audited, KeysOnce, Available;
    ReservedBounds(l, a);
  }

  /** Anything else is refused; without a proper key nothing is even remembered. */
  lemma OtherwiseRefused(hash: Str -> nat, l: Ledger, c: Command)
    ensures !ClientKey(c.key) ==> Apply(hash, l, c).0 == l && !Apply(hash, l, c).1.ok
    ensures NewKey(l, c.key) && c.op != OP_OPEN && c.op != OP_DEPOSIT && c.op != OP_WITHDRAW && c.op != OP_TRANSFER ==>
      !Apply(hash, l, c).1.ok && TurnedDown(l, Apply(hash, l, c).0, c, Apply(hash, l, c).1)
  {
  }

  // ----- holds and legs -----

  /** A hold is granted exactly for what is free to spend, and again to whoever already has it. */
  lemma HoldExactly(l: Ledger, tx: TxId, a: AccountId, amount: Money)
    requires LedgerOk(l)
    ensures
      var (l', r) := PrepareDebit(l, tx, a, amount);
      if tx in l.reserves then
        && l' == l && (r.ok ==> r.balance == Free(l, a))
        && (r.ok <==> 0 < amount && a in l.balances && l.reserves[tx] == Reserve(tx, a, amount))
      else
        && (r.ok <==> 0 < amount && a in l.balances && amount <= Free(l, a))
        && (r.ok ==> l' == l.(reserves := l.reserves[tx := Reserve(tx, a, amount)]) && r.balance == Free(l, a) - amount)
        && (!r.ok ==> l' == l)
  {
    hide Audited, KeysOnce, Reserved, Wrap;
    SpendBounds(l, a);
    if tx !in l.reserves && 0 < amount && a in l.balances && amount <= Free(l, a) {
      ReserveAdded(l.reserves, tx, Reserve(tx, a, amount), a);
      InRange(l.(reserves := l.reserves[tx := Reserve(tx, a, amount)]), a);
    }
  }

  lemma InRange(l: Ledger, a: AccountId)
    requires a in l.balances && 0 <= Reserved(l.reserves, a) <= l.balances[a]
    ensures Available(l, a) == Free(l, a)
  {
  }

  /** What one hold counts for. */
  lemma HoldCounts(l: Ledger, tx: TxId)
    requires LedgerOk(l) && tx in l.reserves
    ensures
      var h := l.reserves[tx];
      && h.account in l.balances && 0 < h.amount <= Reserved(l.reserves, h.account) <= l.balances[h.account]
      && Reserved(l.reserves - {tx}, h.account) == Reserved(l.reserves, h.account) - h.amount
  {
    hide Audited, KeysOnce, Reserved;
    ReservedBounds(l, l.reserves[tx].account);
    ReserveRemoved(l.reserves, tx, l.reserves[tx].account);
  }

  /** Taking what is held: the balance drops by it, the hold is gone, and what was free stays free. */
  lemma DebitExactly(l: Ledger, tx: TxId, ts: Timestamp)
    requires LedgerOk(l)
    ensures
      var (l', r) := CommitDebit(l, tx, ts);
      && (r.ok <==> tx in l.reserves)
      && (!r.ok ==> l' == l)
      && (r.ok ==>
            var h := l.reserves[tx];
            && h.account in l.balances && h.amount <= l.balances[h.account]
            && l'.balances == l.balances[h.account := l.balances[h.account] - h.amount]
            && l'.reserves == l.reserves - {tx} && l'.applied == l.applied && r.balance == l'.balances[h.account]
            && Free(l', h.account) == Free(l, h.account)
            && l'.history == l.history
                 + [Transaction(|l.history| + 1, OP_TRANSFER, DebitKey(tx), [Entry(h.account, 0 - h.amount)], ts)])
  {
    hide Covered, KeysOnce, Reserved, DebitKey;
    if tx in l.reserves {
      HoldCounts(l, tx);
    }
  }

  /** Crediting once per transaction, exactly if the balance still fits. */
  lemma CreditExactly(l: Ledger, tx: TxId, a: AccountId, amount: Money, ts: Timestamp)
    requires LedgerOk(l) && CreditKey(tx) !in l.applied
    ensures
      var (l', r) := CommitCredit(l, tx, a, amount, ts);
      && (r.ok <==> a in l.balances && 0 <= amount && l.balances[a] + amount <= MAX_MONEY)
      && (!r.ok ==> l' == l)
      && (r.ok ==>
            && l'.balances == l.balances[a := l.balances[a] + amount] && r.balance == l.balances[a] + amount
            && l'.reserves == l.reserves && l'.applied == l.applied[CreditKey(tx) := r]
            && l'.history == l.history + [Transaction(|l.history| + 1, OP_TRANSFER, CreditKey(tx), [Entry(a, amount)], ts)])
  {
    hide Covered, KeysOnce, CreditKey, Overflows;
    SpendBounds(l, a);
    GuardExact(l, a, amount);
  }

  /** Releasing a hold frees its amount and touches nothing else; a hold that is not there is no error. */
  lemma ReleaseExactly(l: Ledger, tx: TxId)
    requires LedgerOk(l)
    ensures
      var (l', r) := AbortTx(l, tx);
      && r.ok && l' == l.(reserves := l.reserves - {tx})
      && r.balance == if tx in l.reserves then Free(l, l.reserves[tx].account) + l.reserves[tx].amount else 0
  {
    hide Audited, KeysOnce, Reserved, Covered, Available;
    if tx in l.reserves {
      HoldCounts(l, tx);
      InRange(l.(reserves := l.reserves - {tx}), l.reserves[tx].account);
    } else {
      assert l.reserves - {tx} == l.reserves;
    }
  }
}
