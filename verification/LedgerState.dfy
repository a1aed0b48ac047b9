/**
 The ledger as the source runs it: maps and a history slice updated in place, loops over map entries
 in whatever order they come.  Every method computes the function of Ledger.dfy with its name.
 */
module LedgerState {
  import opened Bytes
  import opened Sums
  import opened Ledger
  import Spec = Ledger
  import opened LedgerInvariant
  import opened LedgerAccounting
  import opened Parsing
  import opened LedgerSnapshot
  import opened SnapshotIO

  class State {
    const hash: Str -> nat
    var balances: map<AccountId, Money>
    var applied: map<Str, Result>
    var digests: map<Str, nat>
    var history: seq<Transaction>
    var reserves: map<TxId, Reserve>
    var number: nat

    ghost function Value(): Ledger
      reads this
    {
      Ledger(balances, applied, digests, history, reserves, number)
    }

    constructor (hash: Str -> nat)
      ensures Value() == EMPTY && this.hash == hash
    {
      this.hash := hash;
      balances, applied, digests, history, reserves, number := map[], map[], map[], [], map[], 0;
    }

    // ----- reading -----

    /** The int64 sum does not depend on the order the map is ranged over. */
    method ReservedFor(id: AccountId) returns (total: Money)
      ensures total == Wrap(Reserved(reserves, id))
    {
      hide Wrap, Sum;
      total := 0;
      var todo := reserves.Keys;
      ghost var held := Held(reserves, id);
      assert reserves.Keys - todo == {};
      SumZero(reserves.Keys - todo, held);
      while todo != {}
        invariant todo <= reserves.Keys
        invariant total == Wrap(Sum(reserves.Keys - todo, held))
      {
        var t :| t in todo;
        SumDone(reserves.Keys, todo, held, t);
        WrapAdd(Sum(reserves.Keys - todo, held), held(t));
        if reserves[t].account == id {
          total := Wrap(total + reserves[t].amount);
        }
        todo := todo - {t};
      }
      assert reserves.Keys - todo == reserves.Keys;
    }

    method AvailableFor(id: AccountId) returns (available: Money, exists_: bool)
      ensures exists_ == (id in balances) && available == Available(Value(), id)
    {
      if id !in balances {
        return 0, false;
      }
      var held := ReservedFor(id);
      var balance: int := balances[id];
      return Wrap(balance - held), true;
    }

    /** The sum of a transaction's entries decides whether a transfer balances. */
    method CheckBalances(t: Transaction) returns (ok: bool)
      ensures ok == Balances(t)
    {
      if t.op != OP_TRANSFER || |t.entries| == 1 {
        return true;
      }
      var sum: Money := 0;
      for i := 0 to |t.entries|
        invariant sum == EntrySum(t.entries[..i])
      {
        hide Wrap;
        assert t.entries[..i + 1][..i] == t.entries[..i];
        sum := Wrap(sum + t.entries[i].amount);
      }
      assert t.entries[..|t.entries|] == t.entries;
      return sum == 0;
    }

    /** The audit: the history balances and folds to the cached balances. */
    method VerifyDoubleEntry() returns (ok: bool)
      ensures ok == ((forall i :: 0 <= i < |history| ==> Balances(history[i]))
                     && |Derived(history)| == |balances|
                     && (forall a :: a in balances ==> Get(Derived(history), a) == balances[a]))
      ensures Audited(Value()) ==> ok
    {
      hide Balances, Wrap;
      var derived: map<AccountId, Money> := map[];
      for i := 0 to |history|
        invariant derived == Derived(history[..i])
        invariant forall j :: 0 <= j < i ==> Balances(history[j])
      {
        var t := history[i];
        var fine := CheckBalances(t);
        if !fine {
          return false;
        }
        ghost var before := derived;
        for j := 0 to |t.entries|
          invariant derived == PostAll(before, t.entries[..j])
        {
          assert t.entries[..j + 1][..j] == t.entries[..j];
          derived := Post(derived, t.entries[j]);
        }
        assert t.entries[..|t.entries|] == t.entries;
        assert history[..i + 1][..i] == history[..i];
      }
      assert history[..|history|] == history;
      if |derived| != |balances| {
        return false;
      }
      var todo := balances.Keys;
      while todo != {}
        invariant todo <= balances.Keys
        invariant forall a :: a in balances.Keys - todo ==> Get(derived, a) == balances[a]
      {
        var a :| a in todo;
        if Get(derived, a) != balances[a] {
          return false;
        }
        todo := todo - {a};
      }
      return true;
    }

    method TotalMoney() returns (total: Money)
      ensures total == Wrap(Total(Value()))
    {
      hide Wrap, Sum;
      total := 0;
      var todo := balances.Keys;
      ghost var value := LedgerAccounting.Value(balances);
      assert balances.Keys - todo == {};
      SumZero(balances.Keys - todo, value);
      while todo != {}
        invariant todo <= balances.Keys
        invariant total == Wrap(Sum(balances.Keys - todo, value))
      {
        var a :| a in todo;
        SumDone(balances.Keys, todo, value, a);
        WrapAdd(Sum(balances.Keys - todo, value), value(a));
        total := Wrap(total + balances[a]);
        todo := todo - {a};
      }
      assert balances.Keys - todo == balances.Keys;
    }

    // ----- client commands -----

    /** The source panics on an unbalanced transfer; the precondition shows no caller can reach that. */
    method Record(op: Byte, key: Str, ts: Timestamp, entries: seq<Entry>)
      requires op != OP_TRANSFER || |entries| == 1 || EntrySum(entries) == 0
      modifies this`history, this`number
      ensures Value() == Spec.Record(old(Value()), op, key, ts, entries)
    {
      number := number + 1;
      var t := Transaction(number, op, key, entries, ts);
      var ok := CheckBalances(t);
      assert ok;
      history := history + [t];
    }

    method Open(c: Command) returns (r: Result)
      requires c.op == OP_OPEN
      modifies this`balances, this`history, this`number
      ensures (Value(), r) == Spec.Open(old(Value()), c)
    {
      if c.to in balances {
        return Refused(ERR_EXISTS);
      }
      if c.amount < 0 {
        return Refused(ERR_AMOUNT);
      }
      balances := balances[c.to := c.amount];
      Record(c.op, c.key, c.ts, [Entry(c.to, c.amount)]);
      return Okay(c.amount);
    }

    method Deposit(c: Command) returns (r: Result)
      requires c.op == OP_DEPOSIT
      modifies this`balances, this`history, this`number
      ensures (Value(), r) == Spec.Deposit(old(Value()), c)
    {
      if c.amount <= 0 {
        return Refused(ERR_AMOUNT);
      }
      if c.to !in balances {
        return Refused(ERR_NO_ACCOUNT);
      }
      if balances[c.to] > Wrap(MAX_MONEY - c.amount) {
        return Refused(ERR_DEPOSIT);
      }
      balances := balances[c.to := Wrap(balances[c.to] + c.amount)];
      Record(c.op, c.key, c.ts, [Entry(c.to, c.amount)]);
      return Okay(balances[c.to]);
    }

    method Withdraw(c: Command) returns (r: Result)
      requires c.op == OP_WITHDRAW
      modifies this`balances, this`history, this`number
      ensures (Value(), r) == Spec.Withdraw(old(Value()), c)
    {
      hide Wrap, Available;
      if c.amount <= 0 {
        return Refused(ERR_AMOUNT);
      }
      if c.from !in balances {
        return Refused(ERR_NO_ACCOUNT);
      }
      var available, _ := AvailableFor(c.from);
      if available < c.amount {
        return Result(false, ERR_FUNDS, available);
      }
      balances := balances[c.from := Wrap(balances[c.from] + (0 - c.amount))];
      Record(c.op, c.key, c.ts, [Entry(c.from, Negate(c.amount))]);
      return Okay(balances[c.from]);
    }

    method Transfer(c: Command) returns (r: Result)
      requires c.op == OP_TRANSFER
      modifies this`balances, this`history, this`number
      ensures (Value(), r) == Spec.Transfer(old(Value()), c)
    {
      hide Wrap, Available, EntrySum;
      if c.amount <= 0 {
        return Refused(ERR_AMOUNT);
      }
      if c.from == c.to {
        return Refused(ERR_SAME);
      }
      if c.from !in balances {
        return Refused(ERR_NO_ACCOUNT);
      }
      var available, _ := AvailableFor(c.from);
      if c.to !in balances {
        return Refused(ERR_NO_ACCOUNT);
      }
      if available < c.amount {
        return Result(false, ERR_FUNDS, available);
      }
      if balances[c.to] > Wrap(MAX_MONEY - c.amount) {
        return Refused(ERR_TRANSFER);
      }
      balances := balances[c.from := Wrap(balances[c.from] + (0 - c.amount))];
      balances := balances[c.to := Wrap(balances[c.to] + c.amount)];
      PairSum(c.from, Negate(c.amount), c.to, c.amount);
      Record(c.op, c.key, c.ts, [Entry(c.from, Negate(c.amount)), Entry(c.to, c.amount)]);
      return Okay(balances[c.from]);
    }

    method Execute(c: Command) returns (r: Result)
      modifies this`balances, this`history, this`number
      ensures (Value(), r) == Spec.Execute(old(Value()), c)
    {
      hide Spec.Open, Spec.Deposit, Spec.Withdraw, Spec.Transfer;
      if c.op == OP_OPEN {
        r := Open(c);
      } else if c.op == OP_DEPOSIT {
        r := Deposit(c);
      } else if c.op == OP_WITHDRAW {
        r := Withdraw(c);
      } else if c.op == OP_TRANSFER {
        r := Transfer(c);
      } else {
        r := Refused(ERR_OP);
      }
    }

    method Apply(c: Command) returns (r: Result)
      modifies this
      ensures (Value(), r) == Spec.Apply(hash, old(Value()), c)
    {
      hide Spec.Execute, HasPrefix, Request;
      if c.key == [] {
        return Refused(ERR_KEY);
      }
      if HasPrefix(c.key, INTERNAL_PREFIX) {
        return Refused(ERR_PREFIX);
      }
      var digest := hash(Request(c));
      if c.key in applied {
        if (if c.key in digests then digests[c.key] else 0) != digest {
          return Refused(ERR_CONFLICT);
        }
        return applied[c.key];
      }
      r := Execute(c);
      applied := applied[c.key := r];
      digests := digests[c.key := digest];
    }

    // ----- two-phase commit -----

    method PrepareDebit(tx: TxId, a: AccountId, amount: Money) returns (r: Result)
      modifies this`reserves
      ensures (Value(), r) == Spec.PrepareDebit(old(Value()), tx, a, amount)
    {
      hide Wrap, Available;
      if amount <= 0 {
        return Refused(ERR_AMOUNT);
      }
      if a !in balances {
        return Refused(ERR_NO_ACCOUNT);
      }
      var available, _ := AvailableFor(a);
      if tx in reserves {
        if reserves[tx].account != a || reserves[tx].amount != amount {
          return Refused(ERR_REBIND);
        }
        return Okay(available);
      }
      if available < amount {
        return Result(false, ERR_FUNDS, available);
      }
      reserves := reserves[tx := Reserve(tx, a, amount)];
      var left, _ := AvailableFor(a);
      return Okay(left);
    }

    method PrepareCredit(a: AccountId, amount: Money) returns (r: Result)
      ensures r == Spec.PrepareCredit(Value(), a, amount)
    {
      if amount <= 0 {
        return Refused(ERR_AMOUNT);
      }
      if a !in balances {
        return Refused(ERR_NO_ACCOUNT);
      }
      return Okay(balances[a]);
    }

    method CommitDebit(tx: TxId, ts: Timestamp) returns (r: Result)
      modifies this`balances, this`reserves, this`history, this`number
      ensures (Value(), r) == Spec.CommitDebit(old(Value()), tx, ts)
    {
      hide Wrap, DebitKey;
      if tx !in reserves {
        return Refused(ERR_NO_RESERVE);
      }
      var held := reserves[tx];
      balances := balances[held.account := Wrap(Get(balances, held.account) + (0 - held.amount))];
      reserves := reserves - {tx};
      Record(OP_TRANSFER, DebitKey(tx), ts, [Entry(held.account, Negate(held.amount))]);
      return Okay(balances[held.account]);
    }

    method CommitCredit(tx: TxId, a: AccountId, amount: Money, ts: Timestamp) returns (r: Result)
      modifies this`balances, this`applied, this`history, this`number
      ensures (Value(), r) == Spec.CommitCredit(old(Value()), tx, a, amount, ts)
    {
      hide Wrap, CreditKey;
      var key := CreditKey(tx);
      if key in applied {
        return applied[key];
      }
      if a !in balances {
        return Refused(ERR_NO_ACCOUNT);
      }
      if balances[a] > Wrap(MAX_MONEY - amount) {
        return Refused(ERR_CREDIT);
      }
      balances := balances[a := Wrap(balances[a] + amount)];
      Record(OP_TRANSFER, key, ts, [Entry(a, amount)]);
      r := Okay(balances[a]);
      applied := applied[key := r];
    }

    method AbortTx(tx: TxId) returns (r: Result)
      modifies this`reserves
      ensures (Value(), r) == Spec.AbortTx(old(Value()), tx)
    {
      hide Wrap, Available;
      if tx !in reserves {
        return Okay(0);
      }
      var held := reserves[tx];
      reserves := reserves - {tx};
      var available, _ := AvailableFor(held.account);
      return Okay(available);
    }

    // ----- snapshots -----

    /** Equal ledgers give equal bytes: the result does not depend on any iteration order. */
    method Snapshot() returns (b: Str)
      ensures b == PutLedger(Value())
    {
      hide PutMap, PutU64, Concat;
      var balanceBytes := WriteMap(balances, PutBalance);
      var appliedBytes := WriteMap(applied, PutResult);
      var digestBytes := WriteMap(digests, PutDigest);
      var reserveBytes := WriteMap(reserves, PutReserve);
      var historyBytes := WriteAll(history, PutTransaction);
      b := PutU64(number) + balanceBytes + appliedBytes + digestBytes + reserveBytes + historyBytes;
      assert b == PutLedger(Value());
    }

    /** Everything is decoded before anything is assigned: a bad snapshot leaves the ledger as it was. */
    method RestoreSnapshot(data: Str) returns (ok: bool)
      modifies this
      ensures ok == GetLedger(data).Some?
      ensures Value() == if ok then GetLedger(data).value.0 else old(Value())
    {
      hide GetLedger;
      var r := new Reader(data);
      var l := ReadLedger(r);
      if r.err {
        return false;
      }
      number, balances, applied, digests, reserves, history := l.number, l.balances, l.applied, l.digests, l.reserves, l.history;
      ok := true;
    }
  }

  // ----- the counted loops of RestoreSnapshot -----

  method ReadLedger(r: Reader) returns (l: Ledger)
    requires r.Valid()
    modifies r`pos, r`err
    ensures r.Valid() && Parsed(old(r.Left()), GetLedger, l, r.Left())
  {
    hide GetU64, GetBalances, GetResults, GetDigests, GetReserves, GetHistory;
    var number := r.U64();
    var balances := ReadBalances(r);
    var applied := ReadResults(r);
    var digests := ReadDigests(r);
    var reserves := ReadReserves(r);
    var history := ReadHistory(r);
    l := Ledger(balances, applied, digests, history, reserves, number);
  }

  method ReadBalances(r: Reader) returns (m: map<AccountId, Money>)
    requires r.Valid()
    modifies r`pos, r`err
    ensures r.Valid() && Parsed(old(r.Left()), GetBalances, m, r.Left())
  {
    hide GetU64, GetStr, GetI64;
    m := map[];
    var n: nat := r.U64();
    ghost var count, start := n, r.Left();
    while n > 0
      invariant r.Valid()
      invariant Remaining(start, count, GetBalance, map[], AddPair) == Remaining(r.Left(), n, GetBalance, m, AddPair)
    {
      var a := r.String();
      var v := r.I64();
      m := m[a := v];
      n := n - 1;
    }
  }

  method ReadResults(r: Reader) returns (m: map<Str, Result>)
    requires r.Valid()
    modifies r`pos, r`err
    ensures r.Valid() && Parsed(old(r.Left()), GetResults, m, r.Left())
  {
    hide GetU64, GetStr, GetI64, GetBool;
    m := map[];
    var n: nat := r.U64();
    ghost var count, start := n, r.Left();
    while n > 0
      invariant r.Valid()
      invariant Remaining(start, count, GetResult, map[], AddPair) == Remaining(r.Left(), n, GetResult, m, AddPair)
    {
      var k := r.String();
      var ok := r.Bool();
      var err := r.String();
      var v := r.I64();
      m := m[k := Result(ok, err, v)];
      n := n - 1;
    }
  }

  method ReadDigests(r: Reader) returns (m: map<Str, nat>)
    requires r.Valid()
    modifies r`pos, r`err
    ensures r.Valid() && Parsed(old(r.Left()), GetDigests, m, r.Left())
  {
    hide GetU64, GetStr;
    m := map[];
    var n: nat := r.U64();
    ghost var count, start := n, r.Left();
    while n > 0
      invariant r.Valid()
      invariant Remaining(start, count, GetDigest, map[], AddPair) == Remaining(r.Left(), n, GetDigest, m, AddPair)
    {
      var k := r.String();
      var v := r.U64();
      m := m[k := v];
      n := n - 1;
    }
  }

  method ReadReserves(r: Reader) returns (m: map<TxId, Reserve>)
    requires r.Valid()
    modifies r`pos, r`err
    ensures r.Valid() && Parsed(old(r.Left()), GetReserves, m, r.Left())
  {
    hide GetU64, GetStr, GetI64;
    m := map[];
    var n: nat := r.U64();
    ghost var count, start := n, r.Left();
    while n > 0
      invariant r.Valid()
      invariant Remaining(start, count, GetReserve, map[], AddPair) == Remaining(r.Left(), n, GetReserve, m, AddPair)
    {
      var k := r.String();
      var t := r.String();
      var a := r.String();
      var v := r.I64();
      m := m[k := Reserve(t, a, v)];
      n := n - 1;
    }
  }

  method ReadEntries(r: Reader, count: nat) returns (entries: seq<Entry>)
    requires r.Valid()
    modifies r`pos, r`err
    ensures r.Valid() && Parsed(old(r.Left()), d => GetMany(count, d, GetEntry, [], AddLast), entries, r.Left())
  {
    hide GetStr, GetI64;
    entries := [];
    var n := count;
    ghost var start := r.Left();
    while n > 0
      invariant r.Valid()
      invariant Remaining(start, count, GetEntry, [], AddLast) == Remaining(r.Left(), n, GetEntry, entries, AddLast)
    {
      var a := r.String();
      var v := r.I64();
      entries := entries + [Entry(a, v)];
      n := n - 1;
    }
  }

  method ReadTransaction(r: Reader) returns (t: Transaction)
    requires r.Valid()
    modifies r`pos, r`err
    ensures r.Valid() && Parsed(old(r.Left()), GetTransaction, t, r.Left())
  {
    hide GetU64, GetStr, GetMany;
    var number := r.U64();
    var op := r.U64();
    var key := r.String();
    var wall := r.U64();
    var logical := r.U64();
    var n := r.U64();
    var entries := ReadEntries(r, n);
    t := Transaction(number, op % 256, key, entries, Timestamp(wall, logical % 0x1_0000_0000));
  }

  method ReadHistory(r: Reader) returns (history: seq<Transaction>)
    requires r.Valid()
    modifies r`pos, r`err
    ensures r.Valid()
    ensures Parsed(old(r.Left()), GetHistory, history, r.Left())
  {
    hide GetU64, GetTransaction;
    history := [];
    var n: nat := r.U64();
    ghost var count, start := n, r.Left();
    while n > 0
      invariant r.Valid()
      invariant Remaining(start, count, GetTransaction, [], AddLast) == Remaining(r.Left(), n, GetTransaction, history, AddLast)
    {
      var t := ReadTransaction(r);
      history := history + [t];
      n := n - 1;
    }
  }
}
