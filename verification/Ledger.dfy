/**
 The double-entry ledger of one shard as a value, and its operations as functions on that value
 (ledger/ledger.go, ledger/reserve.go).

 Money is an int64: every sum and difference the source computes is written with Wrap, and the
 invariant of LedgerInvariant.dfy shows that none of them wraps in a reachable state.  The class
 State in LedgerState.dfy runs the same operations in place.
 */
module Ledger {
  import opened Bytes
  import opened Sums

  type Money = I64
  type AccountId = Str
  type TxId = Str

  const MAX_MONEY: Money := TWO_63 - 1
  const INTERNAL_PREFIX: Str := Ascii("!2pc!:")

  const OP_DEPOSIT: Byte := 1
  const OP_WITHDRAW: Byte := 2
  const OP_TRANSFER: Byte := 3
  const OP_OPEN: Byte := 4

  const ERR_FUNDS: Str := Ascii("insufficient funds")
  const ERR_NO_ACCOUNT: Str := Ascii("no such account")
  const ERR_EXISTS: Str := Ascii("account already exists")
  const ERR_AMOUNT: Str := Ascii("amount must be positive")
  const ERR_SAME: Str := Ascii("cannot transfer to the same account")
  const ERR_KEY: Str := Ascii("idempotency key required")
  const ERR_PREFIX: Str := Ascii("idempotency key uses a reserved internal prefix")
  const ERR_CONFLICT: Str := Ascii("idempotency key already used for a different request")
  const ERR_DEPOSIT: Str := Ascii("deposit would overflow the account balance")
  const ERR_TRANSFER: Str := Ascii("transfer would overflow the destination balance")
  const ERR_CREDIT: Str := Ascii("credit would overflow the account balance")
  const ERR_OP: Str := Ascii("unknown op")
  const ERR_REBIND: Str := Ascii("reservation already holds; refusing to rebind")
  const ERR_NO_RESERVE: Str := Ascii("no reservation held for transaction")

  /** A hybrid logical clock reading; zero means unstamped. */
  datatype Timestamp = Timestamp(wall: U64, logical: U32)

  const UNSTAMPED := Timestamp(0, 0)

  datatype Command = Command(op: Byte, key: Str, from: AccountId, to: AccountId, amount: Money, ts: Timestamp)

  datatype Result = Result(ok: bool, err: Str, balance: Money)

  /** Positive credits, negative debits. */
  datatype Entry = Entry(account: AccountId, amount: Money)

  datatype Transaction = Transaction(number: nat, op: Byte, key: Str, entries: seq<Entry>, ts: Timestamp)

  datatype Reserve = Reserve(txId: TxId, account: AccountId, amount: Money)

  datatype Ledger = Ledger(
    balances: map<AccountId, Money>,
    applied: map<Str, Result>,
    digests: map<Str, nat>,
    history: seq<Transaction>,
    reserves: map<TxId, Reserve>,
    number: nat)

  const EMPTY := Ledger(map[], map[], map[], [], map[], 0)

  function Okay(balance: Money): Result { Result(true, [], balance) }

  function Refused(err: Str): Result { Result(false, err, 0) }

  // ----- fingerprints and keys -----

  /** What the fingerprint hashes: everything the command does, not its key and not its timestamp. */
  function Request(c: Command): Str {
    [c.op] + c.from + [0] + c.to + [0] + LittleEndian(c.amount % TWO_64, 8)
  }

  predicate HasPrefix(s: Str, prefix: Str) { |prefix| <= |s| && s[..|prefix|] == prefix }

  function InternalKey(tx: TxId, leg: Str): (r: Str)
    ensures HasPrefix(r, INTERNAL_PREFIX)
  {
    INTERNAL_PREFIX + tx + Ascii(":") + leg
  }

  function DebitKey(tx: TxId): Str { InternalKey(tx, Ascii("debit")) }

  function CreditKey(tx: TxId): Str { InternalKey(tx, Ascii("credit")) }

  // ----- double entry -----

  /** The int64 sum of a transaction's entries, in order. */
  function EntrySum(entries: seq<Entry>): Money {
    if entries == [] then 0
    else Wrap(EntrySum(entries[..|entries| - 1]) + entries[|entries| - 1].amount)
  }

  /** Only a transfer with two legs here has to sum to zero. */
  predicate Balances(t: Transaction) {
    t.op != OP_TRANSFER || |t.entries| == 1 || EntrySum(t.entries) == 0
  }

  function Get(m: map<AccountId, Money>, a: AccountId): Money { if a in m then m[a] else 0 }

  function Post(m: map<AccountId, Money>, e: Entry): map<AccountId, Money> {
    m[e.account := Wrap(Get(m, e.account) + e.amount)]
  }

  function PostAll(m: map<AccountId, Money>, entries: seq<Entry>): map<AccountId, Money> {
    if entries == [] then m
    else Post(PostAll(m, entries[..|entries| - 1]), entries[|entries| - 1])
  }

  /** The balances a history stands for: the fold VerifyDoubleEntry recomputes. */
  function Derived(history: seq<Transaction>): map<AccountId, Money> {
    if history == [] then map[]
    else PostAll(Derived(history[..|history| - 1]), history[|history| - 1].entries)
  }

  function Record(l: Ledger, op: Byte, key: Str, ts: Timestamp, entries: seq<Entry>): Ledger {
    l.(number := l.number + 1, history := l.history + [Transaction(l.number + 1, op, key, entries, ts)])
  }

  // ----- available funds -----

  ghost function Held(reserves: map<TxId, Reserve>, a: AccountId): TxId -> int {
    t => if t in reserves && reserves[t].account == a then reserves[t].amount else 0
  }

  /** The total reserved against an account, as a mathematical integer. */
  ghost function Reserved(reserves: map<TxId, Reserve>, a: AccountId): int {
    Sum(reserves.Keys, Held(reserves, a))
  }

  ghost function Available(l: Ledger, a: AccountId): Money {
    if a in l.balances then Wrap(l.balances[a] - Wrap(Reserved(l.reserves, a))) else 0
  }

  /** The overflow guard before adding amount to an account. */
  predicate Overflows(l: Ledger, a: AccountId, amount: Money) {
    Get(l.balances, a) > Wrap(MAX_MONEY - amount)
  }

  function Move(l: Ledger, a: AccountId, delta: int): Ledger {
    l.(balances := l.balances[a := Wrap(Get(l.balances, a) + delta)])
  }

  // ----- client commands -----

  function Negate(x: Money): Money { Wrap(0 - x) }

  function Open(l: Ledger, c: Command): (Ledger, Result) {
    if c.to in l.balances then (l, Refused(ERR_EXISTS))
    else if c.amount < 0 then (l, Refused(ERR_AMOUNT))
    else (Record(l.(balances := l.balances[c.to := c.amount]), c.op, c.key, c.ts, [Entry(c.to, c.amount)]), Okay(c.amount))
  }

  function Deposit(l: Ledger, c: Command): (Ledger, Result) {
    if c.amount <= 0 then (l, Refused(ERR_AMOUNT))
    else if c.to !in l.balances then (l, Refused(ERR_NO_ACCOUNT))
    else if Overflows(l, c.to, c.amount) then (l, Refused(ERR_DEPOSIT))
    else
      var l' := Move(l, c.to, c.amount);
      (Record(l', c.op, c.key, c.ts, [Entry(c.to, c.amount)]), Okay(Get(l'.balances, c.to)))
  }

  ghost function Withdraw(l: Ledger, c: Command): (Ledger, Result) {
    if c.amount <= 0 then (l, Refused(ERR_AMOUNT))
    else if c.from !in l.balances then (l, Refused(ERR_NO_ACCOUNT))
    else if Available(l, c.from) < c.amount then (l, Result(false, ERR_FUNDS, Available(l, c.from)))
    else
      var l' := Move(l, c.from, 0 - c.amount);
      (Record(l', c.op, c.key, c.ts, [Entry(c.from, Negate(c.amount))]), Okay(Get(l'.balances, c.from)))
  }

  ghost function Transfer(l: Ledger, c: Command): (Ledger, Result) {
    if c.amount <= 0 then (l, Refused(ERR_AMOUNT))
    else if c.from == c.to then (l, Refused(ERR_SAME))
    else if c.from !in l.balances || c.to !in l.balances then (l, Refused(ERR_NO_ACCOUNT))
    else if Available(l, c.from) < c.amount then (l, Result(false, ERR_FUNDS, Available(l, c.from)))
    else if Overflows(l, c.to, c.amount) then (l, Refused(ERR_TRANSFER))
    else
      var l' := Move(Move(l, c.from, 0 - c.amount), c.to, c.amount);
      (Record(l', c.op, c.key, c.ts, [Entry(c.from, Negate(c.amount)), Entry(c.to, c.amount)]),
       Okay(Get(l'.balances, c.from)))
  }

  ghost function Execute(l: Ledger, c: Command): (Ledger, Result) {
    if c.op == OP_OPEN then Open(l, c)
    else if c.op == OP_DEPOSIT then Deposit(l, c)
    else if c.op == OP_WITHDRAW then Withdraw(l, c)
    else if c.op == OP_TRANSFER then Transfer(l, c)
    else (l, Refused(ERR_OP))
  }

  function Digest(l: Ledger, key: Str): nat { if key in l.digests then l.digests[key] else 0 }

  predicate ClientKey(key: Str) { key != [] && !HasPrefix(key, INTERNAL_PREFIX) }

  /** hash stands for FNV-1a; nothing below depends on which function it is. */
  ghost function Apply(hash: Str -> nat, l: Ledger, c: Command): (Ledger, Result) {
    if c.key == [] then (l, Refused(ERR_KEY))
    else if HasPrefix(c.key, INTERNAL_PREFIX) then (l, Refused(ERR_PREFIX))
    else if c.key in l.applied then
      (l, if Digest(l, c.key) == hash(Request(c)) then l.applied[c.key] else Refused(ERR_CONFLICT))
    else
      var (l', r) := Execute(l, c);
      (l'.(applied := l'.applied[c.key := r], digests := l'.digests[c.key := hash(Request(c))]), r)
  }

  // ----- two-phase commit -----

  ghost function PrepareDebit(l: Ledger, tx: TxId, a: AccountId, amount: Money): (Ledger, Result) {
    if amount <= 0 then (l, Refused(ERR_AMOUNT))
    else if a !in l.balances then (l, Refused(ERR_NO_ACCOUNT))
    else if tx in l.reserves then
      if l.reserves[tx].account != a || l.reserves[tx].amount != amount then (l, Refused(ERR_REBIND))
      else (l, Okay(Available(l, a)))
    else if Available(l, a) < amount then (l, Result(false, ERR_FUNDS, Available(l, a)))
    else
      var l' := l.(reserves := l.reserves[tx := Reserve(tx, a, amount)]);
      (l', Okay(Available(l', a)))
  }

  function PrepareCredit(l: Ledger, a: AccountId, amount: Money): Result {
    if amount <= 0 then Refused(ERR_AMOUNT)
    else if a !in l.balances then Refused(ERR_NO_ACCOUNT)
    else Okay(l.balances[a])
  }

  function CommitDebit(l: Ledger, tx: TxId, ts: Timestamp): (Ledger, Result) {
    if tx !in l.reserves then (l, Refused(ERR_NO_RESERVE))
    else
      var r := l.reserves[tx];
      var l' := Move(l, r.account, 0 - r.amount).(reserves := l.reserves - {tx});
      (Record(l', OP_TRANSFER, DebitKey(tx), ts, [Entry(r.account, Negate(r.amount))]),
       Okay(Get(l'.balances, r.account)))
  }

  function CommitCredit(l: Ledger, tx: TxId, a: AccountId, amount: Money, ts: Timestamp): (Ledger, Result) {
    var key := CreditKey(tx);
    if key in l.applied then (l, l.applied[key])
    else if a !in l.balances then (l, Refused(ERR_NO_ACCOUNT))
    else if Overflows(l, a, amount) then (l, Refused(ERR_CREDIT))
    else
      var l' := Move(l, a, amount);
      var r := Okay(Get(l'.balances, a));
      (Record(l', OP_TRANSFER, key, ts, [Entry(a, amount)]).(applied := l.applied[key := r]), r)
  }

  ghost function AbortTx(l: Ledger, tx: TxId): (Ledger, Result) {
    if tx !in l.reserves then (l, Okay(0))
    else
      var l' := l.(reserves := l.reserves - {tx});
      (l', Okay(Available(l', l.reserves[tx].account)))
  }

  // ----- runs -----

  datatype Step =
    | Submit(command: Command)
    | HoldDebit(tx: TxId, account: AccountId, amount: Money)
    | HoldCredit(account: AccountId, amount: Money)
    | SettleDebit(tx: TxId, ts: Timestamp)
    | SettleCredit(tx: TxId, account: AccountId, amount: Money, ts: Timestamp)
    | Release(tx: TxId)

  ghost function Take(hash: Str -> nat, l: Ledger, s: Step): (Ledger, Result) {
    match s
    case Submit(c) => Apply(hash, l, c)
    case HoldDebit(tx, a, amount) => PrepareDebit(l, tx, a, amount)
    case HoldCredit(a, amount) => (l, PrepareCredit(l, a, amount))
    case SettleDebit(tx, ts) => CommitDebit(l, tx, ts)
    case SettleCredit(tx, a, amount, ts) => CommitCredit(l, tx, a, amount, ts)
    case Release(tx) => AbortTx(l, tx)
  }

  ghost function TakeAll(hash: Str -> nat, l: Ledger, steps: seq<Step>): Ledger
    decreases |steps|
  {
    if steps == [] then l
    else Take(hash, TakeAll(hash, l, steps[..|steps| - 1]), steps[|steps| - 1]).0
  }
}
