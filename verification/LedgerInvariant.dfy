/**
 What every interleaving of ledger operations keeps: funds are covered, nothing wraps, the balance
 cache is the fold of the history, and every idempotency key is used once.
 */
module LedgerInvariant {
  import opened Bytes
  import opened Sums
  import opened Ledger

  /** Every account covers what is reserved against it. */
  ghost predicate Covered(l: Ledger) {
    && (forall a :: a in l.balances ==> 0 <= l.balances[a])
    && (forall a :: Reserved(l.reserves, a) <= Get(l.balances, a))
    && (forall t :: t in l.reserves ==>
          l.reserves[t].txId == t && l.reserves[t].amount > 0 && l.reserves[t].account in l.balances)
  }

  /** The cache is the fold of the history, and every transaction balances. */
  ghost predicate Audited(l: Ledger) {
    && Derived(l.history) == l.balances
    && (forall i :: 0 <= i < |l.history| ==> Balances(l.history[i]) && l.history[i].number == i + 1)
    && l.number == |l.history|
  }

  ghost predicate DebitLike(key: Str) { exists tx :: key == DebitKey(tx) }

  /** A key other than a debit leg's appears at most once, and then has its result recorded. */
  ghost predicate KeysOnce(l: Ledger) {
    && (forall i :: 0 <= i < |l.history| ==> l.history[i].key in l.applied || DebitLike(l.history[i].key))
    && (forall i, j :: 0 <= i < j < |l.history| && l.history[i].key == l.history[j].key ==> DebitLike(l.history[i].key))
    && (forall k :: k in l.applied ==> ClientKey(k) || exists i :: 0 <= i < |l.history| && l.history[i].key == k)
  }

  ghost predicate LedgerOk(l: Ledger) {
    Covered(l) && Audited(l) && KeysOnce(l)
  }

  // ----- keys -----

  lemma KeyShapes(tx: TxId, other: TxId)
    ensures DebitKey(tx) != CreditKey(other) && !ClientKey(DebitKey(tx)) && !ClientKey(CreditKey(tx))
    ensures CreditKey(tx) == CreditKey(other) ==> tx == other
    ensures DebitKey(tx) == DebitKey(other) ==> tx == other
  {
    var d, c := Ascii("debit"), Ascii("credit");
    assert DebitKey(tx)[|DebitKey(tx)| - 3] == d[2] == 'b' as int;
    assert CreditKey(other)[|CreditKey(other)| - 3] == c[3] == 'd' as int;
    KeySlice(tx, d);
    KeySlice(other, d);
    KeySlice(tx, c);
    KeySlice(other, c);
  }

  /** The transaction id can be cut back out of an internal key. */
  lemma KeySlice(tx: TxId, leg: Str)
    ensures
      var k := InternalKey(tx, leg);
      |k| == |INTERNAL_PREFIX| + |tx| + 1 + |leg| && k[|INTERNAL_PREFIX|..|k| - |leg| - 1] == tx
  {
  }

  lemma ClientNotDebit(key: Str)
    requires ClientKey(key)
    ensures !DebitLike(key)
  {
  }

  lemma CreditNotDebit(tx: TxId)
    ensures !DebitLike(CreditKey(tx))
  {
    forall other
      ensures CreditKey(tx) != DebitKey(other)
    {
      KeyShapes(other, tx);
    }
  }

  // ----- sums of reservations -----

  lemma ReserveAdded(r: map<TxId, Reserve>, tx: TxId, x: Reserve, a: AccountId)
    requires tx !in r
    ensures Reserved(r[tx := x], a) == Reserved(r, a) + if x.account == a then x.amount else 0
  {
    var r' := r[tx := x];
    assert r'.Keys == r.Keys + {tx};
    SumPut(r.Keys, Held(r', a), tx);
    SumSame(r.Keys, Held(r', a), Held(r, a));
  }

  lemma ReserveRemoved(r: map<TxId, Reserve>, tx: TxId, a: AccountId)
    requires tx in r
    ensures Reserved(r - {tx}, a) == Reserved(r, a) - if r[tx].account == a then r[tx].amount else 0
  {
    var r' := r - {tx};
    assert r'.Keys == r.Keys - {tx};
    SumTake(r.Keys, Held(r, a), tx);
    SumSame(r'.Keys, Held(r', a), Held(r, a));
  }

  lemma ReservedBounds(l: Ledger, a: AccountId)
    requires Covered(l)
    ensures 0 <= Reserved(l.reserves, a) <= Get(l.balances, a)
    ensures a in l.balances ==> Available(l, a) == l.balances[a] - Reserved(l.reserves, a)
    ensures forall t :: t in l.reserves && l.reserves[t].account == a ==> l.reserves[t].amount <= Reserved(l.reserves, a)
  {
    hide Wrap;
    SumBounds(l.reserves.Keys, Held(l.reserves, a));
    forall t | t in l.reserves && l.reserves[t].account == a
      ensures l.reserves[t].amount <= Reserved(l.reserves, a)
    {
      assert Held(l.reserves, a)(t) == l.reserves[t].amount;
    }
  }

  /** The overflow guard, computed in wrapping int64 arithmetic, admits exactly the safe credits. */
  lemma GuardExact(l: Ledger, a: AccountId, amount: Money)
    requires Get(l.balances, a) >= 0
    ensures !Overflows(l, a, amount) <==> 0 <= amount && Get(l.balances, a) + amount <= MAX_MONEY
  {
  }

  // ----- recording a transaction -----

  lemma RecordAudited(l: Ledger, balances: map<AccountId, Money>, op: Byte, key: Str, ts: Timestamp, entries: seq<Entry>)
    requires Audited(l) && balances == PostAll(l.balances, entries)
    requires op != OP_TRANSFER || |entries| == 1 || EntrySum(entries) == 0
    ensures Audited(Record(l.(balances := balances), op, key, ts, entries))
  {
    hide Balances, PostAll, EntrySum;
    var l' := Record(l.(balances := balances), op, key, ts, entries);
    assert l'.history[..|l'.history| - 1] == l.history;
    assert Balances(l'.history[|l.history|]) by { TransferBalances(l'.history[|l.history|]); }
  }

  lemma TransferBalances(t: Transaction)
    requires t.op != OP_TRANSFER || |t.entries| == 1 || EntrySum(t.entries) == 0
    ensures Balances(t)
  {
  }

  lemma RecordKeys(l: Ledger, l': Ledger, key: Str)
    requires KeysOnce(l) && |l'.history| == |l.history| + 1 && l'.history[..|l.history|] == l.history
    requires l'.history[|l.history|].key == key
    requires (key in l'.applied && key !in l.applied && !DebitLike(key)) || (DebitLike(key) && l'.applied == l.applied)
    requires forall k :: k in l'.applied <==> k in l.applied || (k == key && !DebitLike(key))
    ensures KeysOnce(l')
  {
    hide DebitLike;
    var n := |l.history|;
    assert forall i :: 0 <= i < n ==> l'.history[i] == l.history[i];
    forall k | k in l'.applied
      ensures ClientKey(k) || exists i :: 0 <= i < |l'.history| && l'.history[i].key == k
    {
      if k in l.applied && !ClientKey(k) {
        var i :| 0 <= i < |l.history| && l.history[i].key == k;
        assert l'.history[i].key == k;
      } else if k == key {
        assert l'.history[n].key == k;
      }
    }
  }

  /** The single posting of delta to a. */
  lemma PostOne(l: Ledger, a: AccountId, delta: Money)
    ensures PostAll(l.balances, [Entry(a, delta)]) == Move(l, a, delta).balances
  {
    hide Wrap;
    var e := [Entry(a, delta)];
    assert e[..|e| - 1] == [];
    assert PostAll(l.balances, e[..|e| - 1]) == l.balances;
  }

  lemma PostPair(l: Ledger, a: AccountId, x: Money, b: AccountId, y: Money)
    ensures PostAll(l.balances, [Entry(a, x), Entry(b, y)]) == Move(Move(l, a, x), b, y).balances
  {
    hide Wrap;
    var e := [Entry(a, x), Entry(b, y)];
    assert e[..|e| - 1] == [Entry(a, x)];
    PostOne(l, a, x);
  }

  lemma PairSum(a: AccountId, x: Money, b: AccountId, y: Money)
    requires x + y == 0
    ensures EntrySum([Entry(a, x), Entry(b, y)]) == 0
  {
    var e := [Entry(a, x), Entry(b, y)];
    assert e[..1] == [Entry(a, x)] && e[..1][..0] == [];
    assert EntrySum(e[..1]) == x;
  }

  // ----- each operation -----

  /** The effect of an operation on money, whatever it did to keys and history. */
  ghost predicate Paid(l: Ledger, l': Ledger, a: AccountId, delta: int) {
    && a in l'.balances && l'.balances == l.balances[a := l'.balances[a]]
    && l'.balances[a] == Get(l.balances, a) + delta
    && l'.reserves == l.reserves
  }

  lemma PaidCovered(l: Ledger, l': Ledger, a: AccountId, delta: int)
    requires Covered(l) && Paid(l, l', a, delta)
    requires Reserved(l.reserves, a) <= Get(l.balances, a) + delta
    ensures Covered(l')
  {
    hide Reserved;
    ReservedBounds(l, a);
  }

  lemma OpenOk(l: Ledger, c: Command)
    requires Covered(l) && Audited(l)
    ensures Covered(Open(l, c).0) && Audited(Open(l, c).0)
  {
    hide Audited, Covered, Wrap, Balances, Reserved;
    var l' := Open(l, c).0;
    if l' != l {
      PostOne(l, c.to, c.amount);
      if c.op == OP_TRANSFER { }
      RecordAudited(l, l'.balances, c.op, c.key, c.ts, [Entry(c.to, c.amount)]);
      ReservedBounds(l, c.to);
      PaidCovered(l, l', c.to, c.amount);
    }
  }

  lemma DepositOk(l: Ledger, c: Command)
    requires Covered(l) && Audited(l)
    ensures Covered(Deposit(l, c).0) && Audited(Deposit(l, c).0)
  {
    hide Audited, Wrap, Balances, Reserved, Overflows;
    var l' := Deposit(l, c).0;
    if l' != l {
      GuardExact(l, c.to, c.amount);
      PostOne(l, c.to, c.amount);
      RecordAudited(l, l'.balances, c.op, c.key, c.ts, [Entry(c.to, c.amount)]);
      PaidCovered(l, l', c.to, c.amount);
    }
  }

  lemma WithdrawOk(l: Ledger, c: Command)
    requires Covered(l) && Audited(l)
    ensures Covered(Withdraw(l, c).0) && Audited(Withdraw(l, c).0)
  {
    hide Audited, Wrap, Balances, Reserved, Available;
    var l' := Withdraw(l, c).0;
    if l' != l {
      ReservedBounds(l, c.from);
      PostOne(l, c.from, 0 - c.amount);
      RecordAudited(l, l'.balances, c.op, c.key, c.ts, [Entry(c.from, 0 - c.amount)]);
      PaidCovered(l, l', c.from, 0 - c.amount);
    }
  }

  lemma TransferOk(l: Ledger, c: Command)
    requires Covered(l) && Audited(l)
    ensures Covered(Transfer(l, c).0) && Audited(Transfer(l, c).0)
  {
    hide Audited, Wrap, Balances, Reserved, Available, Overflows, EntrySum, PostAll;
    var l' := Transfer(l, c).0;
    if l' != l {
      ReservedBounds(l, c.from);
      GuardExact(l, c.to, c.amount);
      PostPair(l, c.from, 0 - c.amount, c.to, c.amount);
      PairSum(c.from, 0 - c.amount, c.to, c.amount);
      RecordAudited(l, l'.balances, c.op, c.key, c.ts, [Entry(c.from, 0 - c.amount), Entry(c.to, c.amount)]);
      var half := Move(l, c.from, 0 - c.amount);
      PaidCovered(l, half, c.from, 0 - c.amount);
      PaidCovered(half, l', c.to, c.amount);
    }
  }

  lemma ExecuteOk(l: Ledger, c: Command)
    requires Covered(l) && Audited(l)
    ensures Covered(Execute(l, c).0) && Audited(Execute(l, c).0)
  {
    hide Covered, Audited, Open, Deposit, Withdraw, Transfer;
    OpenOk(l, c);
    DepositOk(l, c);
    WithdrawOk(l, c);
    TransferOk(l, c);
  }

  /** At most one more transaction, under key; no result, fingerprint or reservation touched; no account lost. */
  ghost predicate OneMore(l: Ledger, l': Ledger, key: Str) {
    && l'.applied == l.applied && l'.digests == l.digests && l'.reserves == l.reserves
    && l.balances.Keys <= l'.balances.Keys
    && (l' == l || (exists t: Transaction :: t.key == key && l'.history == l.history + [t]))
  }

  lemma RecordShape(l: Ledger, balances: map<AccountId, Money>, op: Byte, key: Str, ts: Timestamp, entries: seq<Entry>)
    requires l.balances.Keys <= balances.Keys
    ensures OneMore(l, Record(l.(balances := balances), op, key, ts, entries), key)
  {
    var t := Transaction(l.number + 1, op, key, entries, ts);
    assert t.key == key && Record(l.(balances := balances), op, key, ts, entries).history == l.history + [t];
  }

  lemma OpenShape(l: Ledger, c: Command)
    ensures OneMore(l, Open(l, c).0, c.key) && OneMore(l, Deposit(l, c).0, c.key)
  {
    hide Available, Overflows, Wrap, OneMore, Record;
    NoMore(l, c.key);
    RecordShape(l, l.balances[c.to := c.amount], c.op, c.key, c.ts, [Entry(c.to, c.amount)]);
    RecordShape(l, Move(l, c.to, c.amount).balances, c.op, c.key, c.ts, [Entry(c.to, c.amount)]);
  }

  lemma WithdrawShape(l: Ledger, c: Command)
    ensures OneMore(l, Withdraw(l, c).0, c.key) && OneMore(l, Transfer(l, c).0, c.key)
  {
    hide Available, Overflows, Wrap, OneMore, Record, Negate;
    NoMore(l, c.key);
    var half := Move(l, c.from, 0 - c.amount);
    RecordShape(l, half.balances, c.op, c.key, c.ts, [Entry(c.from, Negate(c.amount))]);
    RecordShape(l, Move(half, c.to, c.amount).balances, c.op, c.key, c.ts,
                [Entry(c.from, Negate(c.amount)), Entry(c.to, c.amount)]);
  }

  lemma ExecuteShape(l: Ledger, c: Command)
    ensures OneMore(l, Execute(l, c).0, c.key)
  {
    hide OneMore, Open, Deposit, Withdraw, Transfer;
    NoMore(l, c.key);
    OpenShape(l, c);
    WithdrawShape(l, c);
  }

  lemma NoMore(l: Ledger, key: Str)
    ensures OneMore(l, l, key)
  {
  }

  lemma ApplyOk(hash: Str -> nat, l: Ledger, c: Command)
    requires LedgerOk(l)
    ensures LedgerOk(Apply(hash, l, c).0)
  {
    hide Covered, Audited, Execute, HasPrefix, DebitLike;
    if ClientKey(c.key) && c.key !in l.applied {
      ExecuteOk(l, c);
      ExecuteShape(l, c);
      ClientNotDebit(c.key);
      var l1 := Execute(l, c).0;
      var l' := Apply(hash, l, c).0;
      SameMoney(l1, l');
      if l1 != l {
        assert l'.history[..|l.history|] == l.history;
        RecordKeys(l, l', c.key);
      }
    }
  }

  /** Covered and Audited do not look at recorded results. */
  lemma SameMoney(l: Ledger, l': Ledger)
    requires l' == l.(applied := l'.applied, digests := l'.digests)
    ensures Covered(l') == Covered(l) && Audited(l') == Audited(l)
  {
  }

  lemma PrepareDebitOk(l: Ledger, tx: TxId, a: AccountId, amount: Money)
    requires LedgerOk(l)
    ensures LedgerOk(PrepareDebit(l, tx, a, amount).0)
  {
    hide Audited, KeysOnce, Available, Reserved;
    var l' := PrepareDebit(l, tx, a, amount).0;
    if l' != l {
      ReservedBounds(l, a);
      forall b
        ensures Reserved(l'.reserves, b) <= Get(l'.balances, b)
      {
        ReserveAdded(l.reserves, tx, Reserve(tx, a, amount), b);
      }
      assert Audited(l') == Audited(l) && KeysOnce(l') == KeysOnce(l) by { SameBooks(l, l'); }
    }
  }

  lemma SameBooks(l: Ledger, l': Ledger)
    requires l' == l.(reserves := l'.reserves)
    ensures Audited(l') == Audited(l) && KeysOnce(l') == KeysOnce(l)
  {
  }

  lemma ReleaseCovered(l: Ledger, tx: TxId)
    requires Covered(l) && tx in l.reserves
    ensures Covered(l.(reserves := l.reserves - {tx}))
  {
    hide Reserved;
    var l' := l.(reserves := l.reserves - {tx});
    forall b
      ensures Reserved(l'.reserves, b) <= Get(l'.balances, b)
    {
      ReserveRemoved(l.reserves, tx, b);
    }
  }

  lemma AbortOk(l: Ledger, tx: TxId)
    requires LedgerOk(l)
    ensures LedgerOk(AbortTx(l, tx).0)
  {
    hide Audited, KeysOnce, Covered;
    if tx in l.reserves {
      ReleaseCovered(l, tx);
      SameBooks(l, AbortTx(l, tx).0);
    }
  }

  lemma CommitDebitOk(l: Ledger, tx: TxId, ts: Timestamp)
    requires LedgerOk(l)
    ensures LedgerOk(CommitDebit(l, tx, ts).0)
  {
    hide Audited, KeysOnce, Wrap, Balances, Reserved, DebitKey;
    if tx in l.reserves {
      var r := l.reserves[tx];
      var free := l.(reserves := l.reserves - {tx});
      var l' := CommitDebit(l, tx, ts).0;
      ReservedBounds(l, r.account);
      ReleaseCovered(l, tx);
      ReserveRemoved(l.reserves, tx, r.account);
      PaidCovered(free, l', r.account, 0 - r.amount);
      SameBooks(l, free);
      PostOne(l, r.account, 0 - r.amount);
      RecordAudited(free, l'.balances, OP_TRANSFER, DebitKey(tx), ts, [Entry(r.account, 0 - r.amount)]);
      RecordKeys(l, l', DebitKey(tx));
    }
  }

  lemma CommitCreditOk(l: Ledger, tx: TxId, a: AccountId, amount: Money, ts: Timestamp)
    requires LedgerOk(l)
    ensures LedgerOk(CommitCredit(l, tx, a, amount, ts).0)
  {
    hide Audited, KeysOnce, Wrap, Balances, Reserved, CreditKey, DebitLike, Overflows;
    var l' := CommitCredit(l, tx, a, amount, ts).0;
    if l' != l {
      var mid := l'.(applied := l.applied);
      GuardExact(l, a, amount);
      PaidCovered(l, mid, a, amount);
      PostOne(l, a, amount);
      RecordAudited(l, l'.balances, OP_TRANSFER, CreditKey(tx), ts, [Entry(a, amount)]);
      SameMoney(mid, l');
      CreditNotDebit(tx);
      RecordKeys(l, l', CreditKey(tx));
    }
  }

  lemma TakeOk(hash: Str -> nat, l: Ledger, s: Step)
    requires LedgerOk(l)
    ensures LedgerOk(Take(hash, l, s).0)
  {
    hide LedgerOk, Apply, PrepareDebit, CommitDebit, CommitCredit, AbortTx;
    match s
    case Submit(c) => ApplyOk(hash, l, c);
    case HoldDebit(tx, a, amount) => PrepareDebitOk(l, tx, a, amount);
    case HoldCredit(_, _) =>
    case SettleDebit(tx, ts) => CommitDebitOk(l, tx, ts);
    case SettleCredit(tx, a, amount, ts) => CommitCreditOk(l, tx, a, amount, ts);
    case Release(tx) => AbortOk(l, tx);
  }

  lemma EmptyOk()
    ensures LedgerOk(EMPTY)
  {
    forall a
      ensures Reserved(EMPTY.reserves, a) == 0
    {
      SumZero(EMPTY.reserves.Keys, Held(EMPTY.reserves, a));
    }
  }

  /** From the empty ledger, every interleaving of every operation. */
  lemma {:induction false} RunsOk(hash: Str -> nat, steps: seq<Step>)
    ensures LedgerOk(TakeAll(hash, EMPTY, steps))
    decreases |steps|
  {
    hide LedgerOk, Take;
    if steps == [] {
      EmptyOk();
    } else {
      RunsOk(hash, steps[..|steps| - 1]);
      TakeOk(hash, TakeAll(hash, EMPTY, steps[..|steps| - 1]), steps[|steps| - 1]);
    }
  }

  /** What that means for every account of every reachable ledger. */
  lemma FundsSound(hash: Str -> nat, steps: seq<Step>, a: AccountId)
    ensures
      var l := TakeAll(hash, EMPTY, steps);
      && 0 <= Reserved(l.reserves, a) <= Get(l.balances, a) <= MAX_MONEY
      && (a in l.balances ==> Available(l, a) == l.balances[a] - Reserved(l.reserves, a))
      && Derived(l.history) == l.balances
  {
    hide TakeAll, Wrap, Reserved, Available;
    RunsOk(hash, steps);
    ReservedBounds(TakeAll(hash, EMPTY, steps), a);
  }
}
