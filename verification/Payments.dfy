/**
 The whole path of a client command: routed by the accounts it touches, applied on one shard or run as a protocol
 between two, and what it does to the money where the accounts are kept.
 */
module Payments {
  import opened Bytes
  import opened Ledger
  import L = Ledger
  import opened LedgerInvariant
  import opened LedgerEffects
  import opened ShardMachine
  import opened TwoPhase
  import opened TwoPhaseRuns
  import opened Coordinator
  import opened Transfers

  /** The command names a and acts on it. */
  ghost predicate Touches(c: Command, a: AccountId) {
    || (a == c.to && c.op != OP_WITHDRAW)
    || (a == c.from && c.op != OP_OPEN && c.op != OP_DEPOSIT)
  }

  /** Neither the key nor the transaction id has been used on any shard. */
  ghost predicate Unused(ms: Machines, t: TxId, key: Str) {
    forall x :: x in ms ==> NewKey(ms[x].ledger, key) && t !in ms[x].txs
  }

  /** The ledger where an account is kept. */
  ghost function Home(ms: Machines, owner: AccountId -> ShardId, a: AccountId): Ledger {
    if owner(a) in ms then ms[owner(a)].ledger else EMPTY
  }

  /** The payee's balance with the amount added is still an int64. */
  ghost predicate Fits(ms: Machines, owner: AccountId -> ShardId, c: Command) {
    Get(Home(ms, owner, c.to).balances, c.to) + c.amount <= MAX_MONEY
  }

  /** When the client is told that the command was done. */
  ghost predicate Accepts(ms: Machines, owner: AccountId -> ShardId, c: Command) {
    if c.op == OP_OPEN then 0 <= c.amount && c.to !in Home(ms, owner, c.to).balances
    else if c.op == OP_DEPOSIT then 0 < c.amount && c.to in Home(ms, owner, c.to).balances && Fits(ms, owner, c)
    else
      && 0 < c.amount && c.from in Home(ms, owner, c.from).balances && c.amount <= Free(Home(ms, owner, c.from), c.from)
      && (c.op != OP_WITHDRAW ==>
            && c.to in Home(ms, owner, c.to).balances
            && (owner(c.from) == owner(c.to) ==> c.op == OP_TRANSFER && c.from != c.to && Fits(ms, owner, c)))
  }

  /** By how much it changes an account: between shards, a payee that is full gains nothing. */
  ghost function Change(ms: Machines, owner: AccountId -> ShardId, c: Command, a: AccountId): int {
    (if a == c.to && (c.op == OP_OPEN || (c.op != OP_WITHDRAW && Fits(ms, owner, c))) then c.amount else 0)
    - (if a == c.from && c.op != OP_OPEN && c.op != OP_DEPOSIT then c.amount else 0)
  }

  /** Every account changes by that where it is kept, and nowhere else. */
  ghost predicate Moved(ms: Machines, now: Machines, owner: AccountId -> ShardId, c: Command) {
    forall x, a :: x in ms && x in now ==>
      Get(now[x].ledger.balances, a)
      == Get(ms[x].ledger.balances, a) + if x == owner(a) then Change(ms, owner, c, a) else 0
  }

  ghost predicate SameHolds(ms: Machines, now: Machines) {
    now.Keys == ms.Keys && forall x :: x in ms ==> now[x].ledger.reserves == ms[x].ledger.reserves
  }

  ghost predicate SameMoney(ms: Machines, now: Machines) {
    forall x :: x in ms && x in now ==> now[x].ledger.balances == ms[x].ledger.balances
  }

  /** Opening makes one account, on its owner's shard; nothing else makes or removes one. */
  ghost predicate SameAccounts(ms: Machines, now: Machines, owner: AccountId -> ShardId, c: Command) {
    forall x :: x in ms && x in now ==>
      now[x].ledger.balances.Keys
      == ms[x].ledger.balances.Keys + if c.op == OP_OPEN && x == owner(c.to) then {c.to} else {}
  }

  /** Shards that keep none of the accounts see nothing of it. */
  ghost predicate Elsewhere(ms: Machines, now: Machines, owner: AccountId -> ShardId, c: Command) {
    forall x :: x in ms && x in now && (forall a :: Touches(c, a) ==> owner(a) != x) ==> now[x] == ms[x]
  }

  /**
   The balance the client is told: of the account credited by an open or a deposit, otherwise of the one debited.
   A transfer between shards reports what is free to spend instead.
   */
  ghost function Reported(now: Machines, owner: AccountId -> ShardId, c: Command): int {
    if c.op == OP_OPEN || c.op == OP_DEPOSIT then Get(Home(now, owner, c.to).balances, c.to)
    else if c.op == OP_WITHDRAW || owner(c.from) == owner(c.to) then Get(Home(now, owner, c.from).balances, c.from)
    else Free(Home(now, owner, c.from), c.from)
  }

  /** What a served command comes to. */
  ghost predicate Paid(ms: Machines, now: Machines, owner: AccountId -> ShardId, c: Command, r: Result) {
    && (r.ok <==> Accepts(ms, owner, c))
    && SameHolds(ms, now) && Elsewhere(ms, now, owner, c)
    && (r.ok ==> SameAccounts(ms, now, owner, c) && r.balance == Reported(now, owner, c))
    && (if r.ok then Moved(ms, now, owner, c) else SameMoney(ms, now))
  }

  // ----- on one shard -----

  lemma ApplyPays(hash: Str -> nat, l: Ledger, c: Command)
    requires LedgerOk(l) && NewKey(l, c.key)
    ensures
      var (l', r) := L.Apply(hash, l, c);
      && (r.ok <==>
            if c.op == OP_OPEN then 0 <= c.amount && c.to !in l.balances
            else if c.op == OP_DEPOSIT then 0 < c.amount && c.to in l.balances && l.balances[c.to] + c.amount <= MAX_MONEY
            else
              && 0 < c.amount && c.from in l.balances && c.amount <= Free(l, c.from)
              && (c.op != OP_WITHDRAW ==>
                    c.op == OP_TRANSFER && c.to in l.balances && c.from != c.to && l.balances[c.to] + c.amount <= MAX_MONEY))
      && l'.reserves == l.reserves && (!r.ok ==> l'.balances == l.balances)
      && (r.ok ==> l'.balances.Keys == l.balances.Keys + if c.op == OP_OPEN then {c.to} else {})
      && (r.ok ==> r.balance == Get(l'.balances, if c.op == OP_OPEN || c.op == OP_DEPOSIT then c.to else c.from))
      && (r.ok ==> forall a ::
            Get(l'.balances, a) == Get(l.balances, a)
              + (if a == c.to && c.op != OP_WITHDRAW then c.amount else 0)
              - (if a == c.from && c.op != OP_OPEN && c.op != OP_DEPOSIT then c.amount else 0))
  {
    hide L.Apply, LedgerOk, Free;
    if c.op == OP_OPEN {
      OpenExactly(hash, l, c);
    } else if c.op == OP_DEPOSIT {
      DepositExactly(hash, l, c);
    } else if c.op == OP_WITHDRAW {
      WithdrawExactly(hash, l, c);
    } else if c.op == OP_TRANSFER {
      TransferExactly(hash, l, c);
    } else {
      OtherwiseRefused(hash, l, c);
    }
  }

  lemma SinglePays(hash: Str -> nat, m: Machine, c: Command)
    requires MachineOk(m) && NewKey(m.ledger, c.key)
    ensures LedgerOk(m.ledger)
    ensures
      var (m', r) := ApplyCommand(hash, m, SingleCommand(c));
      (m'.ledger, r) == L.Apply(hash, m.ledger, c) && m'.txs == m.txs && c.key in m'.results && m'.results[c.key] == r
  {
    hide L.Apply, LedgerOk, TxOk, HasPrefix;
  }

  lemma LocalPaid(hash: Str -> nat, ms: Machines, now: Machines, owner: AccountId -> ShardId, x: ShardId, c: Command,
                  r: Result, v: Verdict)
    requires x in ms && MachineOk(ms[x]) && NewKey(ms[x].ledger, c.key)
    requires forall a :: Touches(c, a) ==> owner(a) == x
    requires RanOn(hash, ms, now, x, c, Delivery(true, Replied), r, v)
    ensures Paid(ms, now, owner, c, r) && v == Done
  {
    hide L.Apply, MachineOk, ApplyCommand, NewKey, Free, LedgerOk;
    var l := ms[x].ledger;
    SinglePays(hash, ms[x], c);
    ApplyPays(hash, l, c);
    assert now == ms[x := now[x]] && now[x].ledger == L.Apply(hash, l, c).0;
    assert c.op != OP_WITHDRAW ==> Touches(c, c.to);
    assert c.op != OP_OPEN && c.op != OP_DEPOSIT ==> Touches(c, c.from);
    assert r.ok <==> Accepts(ms, owner, c);
  }

  // ----- between two -----

  lemma VotesIn(hash: Str -> nat, ms: Machines, t: TxId, p: Plan, env: seq<Delivery>)
    requires Fit(ms, t, p, AskDebit) && Transfers.Answered(env)
    ensures BothVoted(hash, ms, t, p, env) <==> Funded(ms[p.from].ledger, p.cmd) && Payable(ms[p.to].ledger, p.cmd)
  {
    hide MachineOk, ApplyCommand, Proposal, Funded, Payable, PairOk;
    FreshBoth(ms, t, p);
    VotesExactly(hash, ms[p.from], t, p);
    VotesExactly(hash, ms[p.to], t, p);
  }

  lemma FreshFits(ms: Machines, t: TxId, p: Plan)
    requires p.from in ms && p.to in ms && p.from != p.to && MachineOk(ms[p.from]) && MachineOk(ms[p.to])
    requires t !in ms[p.from].txs && t !in ms[p.to].txs
    ensures Fit(ms, t, p, AskDebit)
    ensures Funded(ms[p.from].ledger, p.cmd) <==>
      0 < p.cmd.amount && p.cmd.from in ms[p.from].ledger.balances && p.cmd.amount <= Free(ms[p.from].ledger, p.cmd.from)
  {
    hide MachineOk, Available, Free;
    MachineLedger(ms[p.from]);
    SpendBounds(ms[p.from].ledger, p.cmd.from);
  }

  lemma MachineLedger(m: Machine)
    requires MachineOk(m)
    ensures LedgerOk(m.ledger)
  {
    hide LedgerOk, TxOk;
  }

  lemma FreeAfter(l: Ledger, l': Ledger, c: Command)
    requires LedgerOk(l) && Funded(l, c) && l'.reserves == l.reserves
    requires l'.balances == l.balances[c.from := l.balances[c.from] - c.amount]
    ensures Available(l', c.from) == Free(l', c.from)
  {
    hide LedgerOk, Reserved;
    SpendBounds(l, c.from);
  }

  /** The op of a command that goes to two shards. */
  ghost predicate Spans(c: Command, owner: AccountId -> ShardId) {
    c.op != OP_OPEN && c.op != OP_DEPOSIT && c.op != OP_WITHDRAW && owner(c.from) != owner(c.to)
  }

  lemma MovedAcross(ms: Machines, now: Machines, owner: AccountId -> ShardId, c: Command)
    requires Spans(c, owner) && owner(c.from) in ms && owner(c.to) in ms && Payable(ms[owner(c.to)].ledger, c)
    requires c.from in ms[owner(c.from)].ledger.balances && ms[owner(c.from)].ledger.balances[c.from] >= c.amount
    requires now.Keys == ms.Keys && forall x :: x in ms && x != owner(c.from) && x != owner(c.to) ==> now[x] == ms[x]
    requires
      var d, k := ms[owner(c.from)].ledger, ms[owner(c.to)].ledger;
      && now[owner(c.from)].ledger.balances == d.balances[c.from := d.balances[c.from] - c.amount]
      && now[owner(c.to)].ledger.balances == Credited(k, c)
      && now[owner(c.from)].ledger.reserves == d.reserves && now[owner(c.to)].ledger.reserves == k.reserves
    ensures Moved(ms, now, owner, c) && SameAccounts(ms, now, owner, c) && SameHolds(ms, now) && Elsewhere(ms, now, owner, c)
  {
    assert Touches(c, c.from) && Touches(c, c.to);
  }

  lemma AcrossPaid(hash: Str -> nat, ms: Machines, now: Machines, t: TxId, owner: AccountId -> ShardId, c: Command,
                   env: seq<Delivery>, r: Result, v: Verdict)
    requires Spans(c, owner) && Transfers.Answered(env)
    requires owner(c.from) in ms && owner(c.to) in ms && MachineOk(ms[owner(c.from)]) && MachineOk(ms[owner(c.to)])
    requires t !in ms[owner(c.from)].txs && t !in ms[owner(c.to)].txs
    requires RanBetween(hash, ms, now, t, Plan(c, owner(c.from), owner(c.to)), env, r, v)
    ensures Paid(ms, now, owner, c, r) && (r.ok ==> v == Done)
  {
    hide MachineOk, Free, BothVoted, CallOf, Available, LedgerOk, Moved, SameAccounts, Credited;
    var p := Plan(c, owner(c.from), owner(c.to));
    assert Touches(c, c.from) && Touches(c, c.to);
    FreshFits(ms, t, p);
    VotesIn(hash, ms, t, p, env);
    if Funded(ms[p.from].ledger, c) && Payable(ms[p.to].ledger, c) {
      TransferMoves(hash, ms, t, p, env);
      MachineLedger(ms[p.from]);
      FreeAfter(ms[p.from].ledger, now[p.from].ledger, c);
      SpendBounds(ms[p.from].ledger, c.from);
      MovedAcross(ms, now, owner, c);
    } else {
      TransferRefused(hash, ms, t, p, env);
    }
  }

  /**
   A command submitted for the first time and answered throughout is accepted exactly under the plain conditions,
   and then every account on every shard changes by exactly what it should, on the shard of its owner.
   */
  lemma AnsweredPaid(hash: Str -> nat, ms: Machines, now: Machines, t: TxId, c: Command, owner: AccountId -> ShardId,
                     env: seq<Delivery>, r: Result, v: Verdict)
    requires MachinesOk(ms) && Unused(ms, t, c.key) && Transfers.Answered(env) && forall a :: Touches(c, a) ==> owner(a) in ms
    requires Served(hash, ms, now, t, c, owner, env, r, v)
    ensures Paid(ms, now, owner, c, r) && (r.ok ==> v == Done)
  {
    hide MachineOk, NewKey, RanOn, RanBetween, Paid, MachinesOk;
    assert c.op != OP_WITHDRAW ==> Touches(c, c.to);
    assert c.op != OP_OPEN && c.op != OP_DEPOSIT ==> Touches(c, c.from);
    AllOk(ms);
    if c.op == OP_OPEN || c.op == OP_DEPOSIT {
      LocalPaid(hash, ms, now, owner, owner(c.to), c, r, v);
    } else if c.op == OP_WITHDRAW || owner(c.from) == owner(c.to) {
      LocalPaid(hash, ms, now, owner, owner(c.from), c, r, v);
    } else {
      AcrossPaid(hash, ms, now, t, owner, c, env, r, v);
    }
  }

  lemma AllOk(ms: Machines)
    requires MachinesOk(ms)
    ensures forall x :: x in ms ==> MachineOk(ms[x])
  {
    hide MachineOk;
  }
}
