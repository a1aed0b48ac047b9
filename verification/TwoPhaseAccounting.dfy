/**
 Exact accounting over every run: the sum of all balances, plus what has been debited and not yet
 credited, minus what has been credited and not yet debited, is opens plus deposits minus withdrawals.
 */
module TwoPhaseAccounting {
  import opened Bytes
  import opened Sums
  import opened Ledger
  import L = Ledger
  import opened LedgerInvariant
  import opened LedgerAccounting
  import opened ShardMachine
  import opened TwoPhase
  import opened TwoPhaseRuns

  // ----- one machine -----

  /** What shard m has taken out for t (positive) or put in for t (negative). */
  ghost function Owed(m: Machine, t: TxId): int {
    if t !in m.txs then 0
    else if m.txs[t].debit then (if m.txs[t].phase == Committed then m.txs[t].cmd.amount else 0)
    else if CreditKey(t) in m.ledger.applied then -(m.txs[t].cmd.amount as int) else 0
  }

  lemma SingleOwed(hash: Str -> nat, m: Machine, c: ShardCommand, t: TxId)
    requires MachineOk(m)
    ensures
      var m' := ApplySingle(hash, m, c).0;
      Drift(m'.ledger) == Drift(m.ledger) && Owed(m', t) == Owed(m, t)
  {
    hide LedgerOk, L.Apply, Drift, CreditKey, DebitKey, Unique, TxOk, HasPrefix;
    ApplyDrift(hash, m.ledger, c.ledger);
    SingleEffect(hash, m.ledger, c.ledger);
    KeyShapes(t, t);
  }

  lemma PrepareOwed(m: Machine, c: ShardCommand, t: TxId)
    requires MachineOk(m)
    ensures
      var m' := ApplyPrepare(m, c).0;
      Drift(m'.ledger) == Drift(m.ledger) && Owed(m', t) == Owed(m, t)
  {
    hide LedgerOk, Drift, CreditKey, DebitKey, Unique, PrepareDebit;
    var m' := ApplyPrepare(m, c).0;
    PrepareFresh(m, c.txId);
    assert TxOk(m, c.txId);
    if m' != m {
      HoldEffect(m.ledger, c.txId, c.ledger.from, c.ledger.amount);
    }
    DriftIgnoresResults(m.ledger, m'.ledger);
  }

  lemma DecisionOwed(m: Machine, c: ShardCommand, t: TxId)
    requires MachineOk(m)
    ensures Owed(ApplyDecision(m, c).0, t) == Owed(m, t)
  {
    hide LedgerOk, CreditKey, DebitKey, Unique;
    assert TxOk(m, c.txId);
  }

  /** An outcome moves exactly what it books for its transaction. */
  lemma OutcomeOwed(m: Machine, c: ShardCommand, t: TxId)
    requires MachineOk(m) && (c.txId in m.txs ==> m.txs[c.txId].phase != Unknown)
    ensures
      var m' := ApplyOutcome(m, c).0;
      && (t != c.txId ==> Owed(m', t) == Owed(m, t))
      && (t == c.txId ==> Drift(m'.ledger) + Owed(m', t) == Drift(m.ledger) + Owed(m, t))
  {
    hide LedgerOk, Drift, CreditKey, DebitKey, Unique, CommitDebit, CommitCredit, Overflows, Available, Posted;
    if c.txId in m.txs && !Terminal(m.txs[c.txId].phase) {
      var tx, rec := c.txId, m.txs[c.txId];
      var ts := OutcomeTimestamp(c, rec);
      assert TxOk(m, tx);
      KeyShapes(t, tx);
      if !c.commit {
        DriftIgnoresResults(m.ledger, AbortTx(m.ledger, tx).0);
      } else if rec.debit {
        CommitDebitDrift(m.ledger, tx, ts);
        DebitEffect(m.ledger, tx, ts);
      } else {
        CommitCreditDrift(m.ledger, tx, rec.cmd.to, rec.cmd.amount, ts);
        CreditEffect(m.ledger, tx, rec.cmd.to, rec.cmd.amount, ts);
      }
    }
  }

  lemma CommandOwed(hash: Str -> nat, m: Machine, c: ShardCommand, t: TxId)
    requires MachineOk(m) && (c.txId in m.txs ==> m.txs[c.txId].phase != Unknown)
    ensures
      var m' := ApplyCommand(hash, m, c).0;
      && (t != c.txId || c.op == OP_SINGLE ==> Owed(m', t) == Owed(m, t))
      && (t == c.txId || c.op == OP_SINGLE ==> Drift(m'.ledger) + Owed(m', t) == Drift(m.ledger) + Owed(m, t))
  {
    hide MachineOk, Drift, Owed, ApplySingle, ApplyPrepare, ApplyOutcome;
    SingleOwed(hash, m, c, t);
    PrepareOwed(m, c, t);
    DecisionOwed(m, c, t);
    OutcomeOwed(m, c, t);
  }

  // ----- the whole system -----

  ghost function DriftOf(s: System): ShardId -> int {
    x => if x in s.machines then Drift(s.machines[x].ledger) else 0
  }

  /** Debited here and not yet credited there, minus the reverse. */
  ghost function Transit(s: System, t: TxId): int {
    if t !in s.jobs || s.jobs[t].plan.from !in s.machines || s.jobs[t].plan.to !in s.machines then 0
    else Owed(s.machines[s.jobs[t].plan.from], t) + Owed(s.machines[s.jobs[t].plan.to], t)
  }

  ghost function TransitOf(s: System): TxId -> int { t => Transit(s, t) }

  ghost function TotalOf(s: System): ShardId -> int {
    x => if x in s.machines then Total(s.machines[x].ledger) else 0
  }

  ghost function BoundaryOf(s: System): ShardId -> int {
    x => if x in s.machines then Boundary(s.machines[x].ledger.history) else 0
  }

  ghost predicate Accounted(s: System) {
    Sum(s.machines.Keys, DriftOf(s)) + Sum(s.jobs.Keys, TransitOf(s)) == 0
  }

  /** One machine's drift and one transfer's transit change by opposite amounts. */
  lemma Offset(s: System, s': System, x: ShardId, t: TxId)
    requires x in s.machines && s'.machines.Keys == s.machines.Keys && s'.jobs.Keys == s.jobs.Keys && t in s.jobs
    requires forall y :: y != x ==> DriftOf(s')(y) == DriftOf(s)(y)
    requires forall u :: u != t ==> Transit(s', u) == Transit(s, u)
    requires DriftOf(s')(x) + Transit(s', t) == DriftOf(s)(x) + Transit(s, t)
    requires Accounted(s)
    ensures Accounted(s')
  {
    hide Transit, Drift;
    SumChange(s.machines.Keys, DriftOf(s), DriftOf(s'), x);
    SumChange(s.jobs.Keys, TransitOf(s), TransitOf(s'), t);
  }

  lemma Quiet(s: System, s': System)
    requires s'.machines.Keys == s.machines.Keys && s'.jobs.Keys == s.jobs.Keys
    requires forall y :: DriftOf(s')(y) == DriftOf(s)(y)
    requires forall u :: Transit(s', u) == Transit(s, u)
    requires Accounted(s)
    ensures Accounted(s')
  {
    hide Transit, Drift;
    SumSame(s.machines.Keys, DriftOf(s), DriftOf(s'));
    SumSame(s.jobs.Keys, TransitOf(s), TransitOf(s'));
  }

  lemma OnTransit(hash: Str -> nat, s: System, shard: ShardId, c: ShardCommand, u: TxId)
    requires Sane(s, false) && Proper(s, shard, c)
    ensures
      var s' := On(hash, s, shard, c);
      && (u != c.txId ==> Transit(s', u) == Transit(s, u))
      && (u == c.txId ==> DriftOf(s')(shard) + Transit(s', u) == DriftOf(s)(shard) + Transit(s, u))
  {
    hide MachineOk, ApplyCommand, Drift, Owed, LateMessageOk;
    assert JobOk(s, c.txId, false) && JobOk(s, u, false) && MachineOk(s.machines[shard]);
    CommandOwed(hash, s.machines[shard], c, u);
  }

  lemma OnAccounted(hash: Str -> nat, s: System, shard: ShardId, c: ShardCommand)
    requires Sane(s, false) && Proper(s, shard, c) && Accounted(s)
    ensures Accounted(On(hash, s, shard, c))
  {
    hide Sane, ApplyCommand, Drift, Transit, Accounted;
    var s' := On(hash, s, shard, c);
    forall u
      ensures u != c.txId ==> Transit(s', u) == Transit(s, u)
      ensures u == c.txId ==> DriftOf(s')(shard) + Transit(s', u) == DriftOf(s)(shard) + Transit(s, u)
    {
      OnTransit(hash, s, shard, c, u);
    }
    Offset(s, s', shard, c.txId);
  }

  lemma SingleTransit(hash: Str -> nat, s: System, shard: ShardId, c: Command, u: TxId)
    requires Sane(s, false) && shard in s.machines
    ensures
      var s' := On(hash, s, shard, SingleCommand(c));
      Transit(s', u) == Transit(s, u) && DriftOf(s')(shard) == DriftOf(s)(shard)
  {
    hide MachineOk, Drift, Owed, LateMessageOk, ApplySingle;
    assert MachineOk(s.machines[shard]);
    SingleOwed(hash, s.machines[shard], SingleCommand(c), u);
  }

  lemma SingleAccounted(hash: Str -> nat, s: System, shard: ShardId, c: Command)
    requires Sane(s, false) && shard in s.machines && Accounted(s)
    ensures Accounted(On(hash, s, shard, SingleCommand(c)))
  {
    hide Sane, ApplyCommand, Drift, Transit, Accounted;
    var s' := On(hash, s, shard, SingleCommand(c));
    SingleTransit(hash, s, shard, c, []);
    forall u
      ensures Transit(s', u) == Transit(s, u)
    {
      SingleTransit(hash, s, shard, c, u);
    }
    Quiet(s, s');
  }

  lemma BeginAccounted(hash: Str -> nat, s: System, t: TxId, p: Plan)
    requires Sane(s, false) && Enabled(s, Begin(t, p)) && Accounted(s)
    ensures Accounted(Next(hash, s, Begin(t, p)))
  {
    hide MachinesOk, JobOk, LateMessageOk, Drift;
    var s' := Next(hash, s, Begin(t, p));
    assert Placed(s, p.from, t) && Placed(s, p.to, t);
    assert s'.jobs.Keys == s.jobs.Keys + {t};
    SumPut(s.jobs.Keys, TransitOf(s'), t);
    SumSame(s.jobs.Keys, TransitOf(s), TransitOf(s'));
    SumSame(s.machines.Keys, DriftOf(s), DriftOf(s'));
  }

  /** Steps that change neither a machine nor the set of transfers. */
  lemma SameAccounts(s: System, s': System)
    requires s'.machines == s.machines && s'.jobs.Keys == s.jobs.Keys && Accounted(s)
    requires forall t :: t in s.jobs ==> s'.jobs[t].plan == s.jobs[t].plan
    ensures Accounted(s')
  {
    hide Owed, Drift, Accounted;
    Quiet(s, s');
  }

  lemma StepAccounted(hash: Str -> nat, s: System, e: Event)
    requires Sane(s, false) && Enabled(s, e) && Accounted(s)
    ensures Accounted(Next(hash, s, e))
  {
    hide Sane, Accounted, ApplyCommand, Proper;
    match e
    case Begin(t, p) => BeginAccounted(hash, s, t, p);
    case Drive(t, d) =>
      var j := s.jobs[t];
      var shard, c := Target(j.plan, j.pc), Proposal(t, j.plan, j.pc);
      DriveProper(s, t, d, false);
      var mid := if d.applied then On(hash, s, shard, c) else s;
      if d.applied {
        OnAccounted(hash, s, shard, c);
      }
      SameAccounts(mid, DriveNext(hash, s, t, d));
    case Halt(t) => SameAccounts(s, Next(hash, s, e));
    case Single(shard, c) => SingleAccounted(hash, s, shard, c);
    case Inquire(_, _, _) => SameAccounts(s, Next(hash, s, e));
    case Deliver(l) =>
      assert LateMessageOk(s, l, false) by { OneLate(s, l); }
      LateProper(s, l, false);
      OnAccounted(hash, s, l.shard, l.command);
  }

  lemma OneLate(s: System, l: Late)
    requires Sane(s, false) && l in s.late
    ensures LateMessageOk(s, l, false)
  {
  }

  lemma InitialAccounted(s: System)
    requires Initial(s)
    ensures Accounted(s)
  {
    assert Total(EMPTY) == 0;
    SumZero(s.machines.Keys, DriftOf(s));
    SumZero(s.jobs.Keys, TransitOf(s));
  }

  lemma {:induction false} RunAccounted(hash: Str -> nat, run: seq<System>, events: seq<Event>, i: nat)
    requires Run(hash, run, events) && i < |run|
    ensures Accounted(run[i])
    decreases i
  {
    hide Sane, Next, Enabled, Initial, Accounted;
    if i == 0 {
      InitialAccounted(run[0]);
    } else {
      RunAccounted(hash, run, events, i - 1);
      RunOk(hash, run, events, i - 1, false);
      StepAccounted(hash, run[i - 1], events[i - 1]);
    }
  }

  lemma {:induction false} SumMinus<K(!new)>(s: set<K>, f: K -> int, g: K -> int, h: K -> int)
    requires forall k :: k in s ==> h(k) == f(k) - g(k)
    ensures Sum(s, h) == Sum(s, f) - Sum(s, g)
    decreases |s|
  {
    if s != {} {
      var k :| k in s;
      SumTake(s, f, k);
      SumTake(s, g, k);
      SumTake(s, h, k);
      SumMinus(s - {k}, f, g, h);
    }
  }

  /** All balances plus money in transit equal opens plus deposits minus withdrawals, at every moment. */
  lemma ExactAccounting(hash: Str -> nat, run: seq<System>, events: seq<Event>, i: nat)
    requires Run(hash, run, events) && i < |run|
    ensures
      var s := run[i];
      Sum(s.machines.Keys, TotalOf(s)) + Sum(s.jobs.Keys, TransitOf(s)) == Sum(s.machines.Keys, BoundaryOf(s))
  {
    hide Run, Total, Boundary, Transit;
    var s := run[i];
    RunAccounted(hash, run, events, i);
    SumMinus(s.machines.Keys, TotalOf(s), BoundaryOf(s), DriftOf(s));
  }
}
