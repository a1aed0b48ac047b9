/**
 Money in transit read off the phases, given headroom on credit targets; what happens without it; and
 why recovery has to wait for the coordinator to stop.
 */
module TwoPhaseHeadroom {
  import opened Bytes
  import opened Sums
  import opened Ledger
  import opened LedgerInvariant
  import opened LedgerAccounting
  import opened ShardMachine
  import opened TwoPhase
  import opened TwoPhaseRuns
  import opened TwoPhaseAccounting

  /** The command an event applies, and where. */
  ghost function Applied(s: System, e: Event): Option<Late>
    requires Enabled(s, e)
  {
    match e
    case Drive(t, d) =>
      if d.applied then Some(Late(Target(s.jobs[t].plan, s.jobs[t].pc), Proposal(t, s.jobs[t].plan, s.jobs[t].pc))) else None
    case Deliver(l) => Some(l)
    case _ => None
  }

  /** A commit about to be applied to a prepared credit fits in the account. */
  ghost predicate HasRoom(m: Machine, c: ShardCommand) {
    c.op == OP_OUTCOME && c.commit && c.txId in m.txs && m.txs[c.txId].phase == Prepared && !m.txs[c.txId].debit ==>
      Get(m.ledger.balances, m.txs[c.txId].cmd.to) + m.txs[c.txId].cmd.amount <= MAX_MONEY
  }

  ghost predicate Roomy(s: System, e: Event)
    requires Enabled(s, e)
  {
    var a := Applied(s, e);
    a.Some? && a.value.shard in s.machines ==> HasRoom(s.machines[a.value.shard], a.value.command)
  }

  ghost predicate RoomyRun(hash: Str -> nat, run: seq<System>, events: seq<Event>) {
    Run(hash, run, events) && forall i :: 0 <= i < |events| ==> Enabled(run[i], events[i]) && Roomy(run[i], events[i])
  }

  /** Committed credits have landed. */
  ghost predicate Landed(m: Machine, t: TxId) {
    t in m.txs && m.txs[t].phase == Committed && !m.txs[t].debit ==> CreditKey(t) in m.ledger.applied
  }

  /** A prepared credit lands on commit if and only if the account has room for it. */
  lemma LandsExactly(m: Machine, c: ShardCommand)
    requires MachineOk(m) && c.txId in m.txs && m.txs[c.txId].phase == Prepared && !m.txs[c.txId].debit && c.commit
    ensures
      var m' := ApplyOutcome(m, c).0;
      var rec := m.txs[c.txId];
      && m'.txs[c.txId].phase == Committed
      && (Landed(m', c.txId) <==> Get(m.ledger.balances, rec.cmd.to) + rec.cmd.amount <= MAX_MONEY)
  {
    hide LedgerOk, Unique, CreditKey, DebitKey, Posted, CommitCredit, Overflows;
    var rec := m.txs[c.txId];
    assert TxOk(m, c.txId);
    NotYetPosted(m, c.txId);
    CreditEffect(m.ledger, c.txId, rec.cmd.to, rec.cmd.amount, OutcomeTimestamp(c, rec));
    BalanceNonNegative(m.ledger, rec.cmd.to);
    GuardExact(m.ledger, rec.cmd.to, rec.cmd.amount);
  }

  lemma CommandLanded(hash: Str -> nat, m: Machine, c: ShardCommand, t: TxId)
    requires MachineOk(m) && Landed(m, t) && HasRoom(m, c)
    requires c.txId in m.txs ==> m.txs[c.txId].phase != Unknown
    ensures Landed(ApplyCommand(hash, m, c).0, t)
  {
    hide MachineOk, CreditKey, ApplySingle, Vote, Settle;
    KeepsApplied(hash, m, c, CreditKey(t));
    PrepareFresh(m, c.txId);
    if c.op == OP_OUTCOME && c.txId in m.txs && m.txs[c.txId].phase == Prepared && !m.txs[c.txId].debit && c.commit {
      LandsExactly(m, c);
    }
    SingleTxs(hash, m, c);
  }

  lemma SingleTxs(hash: Str -> nat, m: Machine, c: ShardCommand)
    ensures ApplySingle(hash, m, c).0.txs == m.txs
  {
  }

  /** No command forgets a recorded result. */
  lemma KeepsApplied(hash: Str -> nat, m: Machine, c: ShardCommand, key: Str)
    ensures key in m.ledger.applied ==> key in ApplyCommand(hash, m, c).0.ledger.applied
  {
    hide ApplySingle, ApplyPrepare, ApplyDecision, ApplyOutcome;
    SingleKeepsApplied(hash, m, c, key);
    ProtocolKeepsApplied(m, c, key);
  }

  lemma SingleKeepsApplied(hash: Str -> nat, m: Machine, c: ShardCommand, key: Str)
    ensures key in m.ledger.applied ==> key in ApplySingle(hash, m, c).0.ledger.applied
  {
    hide Execute, HasPrefix;
    SingleEffect(hash, m.ledger, c.ledger);
  }

  lemma ProtocolKeepsApplied(m: Machine, c: ShardCommand, key: Str)
    ensures key in m.ledger.applied ==> key in ApplyPrepare(m, c).0.ledger.applied
    ensures key in m.ledger.applied ==> key in ApplyDecision(m, c).0.ledger.applied
    ensures key in m.ledger.applied ==> key in ApplyOutcome(m, c).0.ledger.applied
  {
    hide CreditKey, DebitKey, Overflows, Available, Wrap, DecisionRecord;
  }

  ghost predicate AllLanded(s: System) {
    forall x, t :: x in s.machines ==> Landed(s.machines[x], t)
  }

  lemma StepLanded(hash: Str -> nat, s: System, e: Event)
    requires Sane(s, false) && Enabled(s, e) && Roomy(s, e) && AllLanded(s)
    ensures AllLanded(Next(hash, s, e))
  {
    hide MachineOk, ApplyCommand, Landed, HasRoom, PairOk;
    var s' := Next(hash, s, e);
    forall x, t | x in s'.machines
      ensures Landed(s'.machines[x], t)
    {
      if e.Single? && x == e.shard {
        SingleLanded(hash, s.machines[x], SingleCommand(e.command), t);
      } else if Applied(s, e).Some? && Applied(s, e).value.shard == x {
        var c := Applied(s, e).value.command;
        KnownPhase(s, e);
        CommandLanded(hash, s.machines[x], c, t);
      }
    }
  }

  lemma SingleLanded(hash: Str -> nat, m: Machine, c: ShardCommand, t: TxId)
    requires Landed(m, t) && c.op == OP_SINGLE
    ensures Landed(ApplyCommand(hash, m, c).0, t)
  {
    hide CreditKey;
    KeepsApplied(hash, m, c, CreditKey(t));
  }

  /** Every record a transfer's command meets was made by a prepare. */
  lemma KnownPhase(s: System, e: Event)
    requires Sane(s, false) && Enabled(s, e) && Applied(s, e).Some? && Applied(s, e).value.shard in s.machines
    ensures
      var a := Applied(s, e).value;
      MachineOk(s.machines[a.shard])
      && (a.command.txId in s.machines[a.shard].txs ==> s.machines[a.shard].txs[a.command.txId].phase != Unknown)
  {
    hide MachineOk, LateOk;
    var a := Applied(s, e).value;
    var t := a.command.txId;
    if e.Deliver? {
      assert LateMessageOk(s, a, false);
    }
    assert Placed(s, a.shard, t) && JobOk(s, t, false);
  }

  lemma {:induction false} RunLanded(hash: Str -> nat, run: seq<System>, events: seq<Event>, i: nat)
    requires RoomyRun(hash, run, events) && i < |run|
    ensures AllLanded(run[i])
    decreases i
  {
    hide Sane, Next, Enabled, Roomy;
    if i > 0 {
      RunLanded(hash, run, events, i - 1);
      RunOk(hash, run, events, i - 1, false);
      StepLanded(hash, run[i - 1], events[i - 1]);
    }
  }

  // ----- accounting by phases -----

  ghost function InPhaseAmount(r: Option<TxRecord>): int {
    if InPhase(r, Committed) then r.value.cmd.amount else 0
  }

  /** Amount debited and not yet credited, minus the reverse, read off the two phases. */
  ghost function PhaseTransit(s: System): TxId -> int {
    t => if t in s.jobs then InPhaseAmount(DebitRecord(s, t)) - InPhaseAmount(CreditRecord(s, t)) else 0
  }

  lemma TransitByPhase(s: System, t: TxId)
    requires Sane(s, false) && AllLanded(s) && t in s.jobs
    ensures Transit(s, t) == PhaseTransit(s)(t)
  {
    hide LedgerOk, Unique, CreditKey, DebitKey, Posted, LateMessageOk;
    var p := s.jobs[t].plan;
    assert JobOk(s, t, false);
    assert TxOk(s.machines[p.from], t) && TxOk(s.machines[p.to], t);
    assert Landed(s.machines[p.to], t);
  }

  /**
   With headroom on every credit: balances, plus transfers debited and not yet credited, minus transfers
   credited and not yet debited, equal opens plus deposits minus withdrawals.
   */
  lemma ConservedByPhases(hash: Str -> nat, run: seq<System>, events: seq<Event>, i: nat)
    requires RoomyRun(hash, run, events) && i < |run|
    ensures
      var s := run[i];
      Sum(s.machines.Keys, TotalOf(s)) + Sum(s.jobs.Keys, PhaseTransit(s)) == Sum(s.machines.Keys, BoundaryOf(s))
  {
    hide Sane, Run, Total, Boundary, Transit, PhaseTransit, AllLanded;
    var s := run[i];
    ExactAccounting(hash, run, events, i);
    RunOk(hash, run, events, i, false);
    RunLanded(hash, run, events, i);
    forall t | t in s.jobs
      ensures TransitOf(s)(t) == PhaseTransit(s)(t)
    {
      TransitByPhase(s, t);
    }
    SumSame(s.jobs.Keys, TransitOf(s), PhaseTransit(s));
  }

  /** No record of any transfer is still prepared. */
  ghost predicate Quiescent(s: System) {
    forall x, t :: x in s.machines && t in s.machines[x].txs ==> s.machines[x].txs[t].phase != Prepared
  }

  /** Once everything is settled, and recovery was answered well, nothing is in transit: the balances alone add up. */
  lemma SettledConserved(hash: Str -> nat, run: seq<System>, events: seq<Event>, i: nat)
    requires RoomyRun(hash, run, events) && FreshRun(hash, run, events) && i < |run| && Quiescent(run[i])
    ensures Sum(run[i].machines.Keys, TotalOf(run[i])) == Sum(run[i].machines.Keys, BoundaryOf(run[i]))
  {
    hide Run, FreshRun, Total, Boundary, MachinesOk, LateMessageOk, LoosePair;
    var s := run[i];
    ConservedByPhases(hash, run, events, i);
    RunOk(hash, run, events, i, true);
    forall t | t in s.jobs
      ensures PhaseTransit(s)(t) == 0
    {
      assert JobOk(s, t, true);
      SettledPair(s, t);
    }
    SumZero(s.jobs.Keys, PhaseTransit(s));
  }

  lemma SettledPair(s: System, t: TxId)
    requires t in s.jobs && JobOk(s, t, true) && Quiescent(s)
    ensures PhaseTransit(s)(t) == 0
  {
  }

  // ----- atomicity between any two moments -----

  ghost predicate StaysSettled(s: System, s': System, t: TxId) {
    && t in s'.jobs && t in s.jobs && s'.jobs[t].plan == s.jobs[t].plan
    && forall p :: p == Committed || p == Aborted ==>
         && (InPhase(DebitRecord(s, t), p) ==> InPhase(DebitRecord(s', t), p))
         && (InPhase(CreditRecord(s, t), p) ==> InPhase(CreditRecord(s', t), p))
  }

  lemma StepSettled(hash: Str -> nat, s: System, e: Event, t: TxId)
    requires Enabled(s, e) && t in s.jobs
    ensures StaysSettled(s, Next(hash, s, e), t)
  {
    hide ApplyCommand;
    var s' := Next(hash, s, e);
    forall x | x in s.machines
      ensures x in s'.machines && Settled(s.machines[x], s'.machines[x], t)
    {
      match e
      case Drive(u, d) => StepFinal(hash, s.machines[x], Proposal(u, s.jobs[u].plan, s.jobs[u].pc), t);
      case Single(_, c) => StepFinal(hash, s.machines[x], SingleCommand(c), t);
      case Deliver(l) => StepFinal(hash, s.machines[x], l.command, t);
      case _ =>
    }
  }

  lemma {:induction false} RunSettled(hash: Str -> nat, run: seq<System>, events: seq<Event>, i: nat, j: nat, t: TxId)
    requires Run(hash, run, events) && i <= j < |run| && t in run[i].jobs
    ensures StaysSettled(run[i], run[j], t)
    decreases j
  {
    hide Next, Enabled, Initial;
    if i < j {
      RunSettled(hash, run, events, i, j - 1, t);
      StepSettled(hash, run[j - 1], events[j - 1], t);
    }
  }

  /** A commit on one shard at any moment excludes an abort on the other at any other moment. */
  lemma AtomicForever(hash: Str -> nat, run: seq<System>, events: seq<Event>, i: nat, j: nat, t: TxId)
    requires FreshRun(hash, run, events) && i < |run| && j < |run| && t in run[i].jobs && t in run[j].jobs
    ensures !(InPhase(DebitRecord(run[i], t), Committed) && InPhase(CreditRecord(run[j], t), Aborted))
    ensures !(InPhase(DebitRecord(run[i], t), Aborted) && InPhase(CreditRecord(run[j], t), Committed))
  {
    hide Run, FreshRun;
    FreshIsRun(hash, run, events);
    var k := Max(i, j);
    RunSettled(hash, run, events, i, k, t);
    RunSettled(hash, run, events, j, k, t);
    Atomicity(hash, run, events, k, t);
  }

  // ----- the hypotheses are needed -----

  /** Recovery that does not wait: it aborts the credit, then the coordinator commits the debit. */
  lemma EarlyRecoverySplits(s: System, t: TxId)
    requires SystemOk(s) && t in s.jobs && s.jobs[t].pc == LogDecision(true)
    ensures
      var p := s.jobs[t].plan;
      p.from in s.machines && p.to in s.machines && t in s.machines[p.from].txs && t in s.machines[p.to].txs
      && var d, c := s.machines[p.from], s.machines[p.to];
         var c1 := ApplyOutcome(c, RecoveryOutcome(c.txs[t], d)).0;
         var d1 := ApplyDecision(d, Proposal(t, p, LogDecision(true))).0;
         var d2 := ApplyOutcome(d1, Proposal(t, p, TellDebit(true))).0;
         d2.txs[t].phase == Committed && c1.txs[t].phase == Aborted
  {
    hide MachineOk, LateMessageOk, Settle;
    var p := s.jobs[t].plan;
    assert JobOk(s, t, true) && MachineOk(s.machines[p.to]);
    IdMatches(s.machines[p.to], t);
  }

  /** Recovery that does not wait, on the other side: it aborts the debit, then the decision lands and the credit commits. */
  lemma LateDecisionSplits(s: System, t: TxId)
    requires SystemOk(s) && t in s.jobs && s.jobs[t].pc == LogDecision(true)
    ensures
      var p := s.jobs[t].plan;
      p.from in s.machines && p.to in s.machines && t in s.machines[p.from].txs && t in s.machines[p.to].txs
      && var d, c := s.machines[p.from], s.machines[p.to];
         var d1 := ApplyOutcome(d, RecoveryOutcome(d.txs[t], d)).0;
         var d2 := ApplyDecision(d1, Proposal(t, p, LogDecision(true))).0;
         var c1 := ApplyOutcome(c, RecoveryOutcome(c.txs[t], d2)).0;
         d2.txs[t].phase == Aborted && c1.txs[t].phase == Committed
  {
    hide MachineOk, LateMessageOk, Settle;
    var p := s.jobs[t].plan;
    assert JobOk(s, t, true) && MachineOk(s.machines[p.to]) && MachineOk(s.machines[p.from]);
    IdMatches(s.machines[p.to], t);
    IdMatches(s.machines[p.from], t);
  }

  /**
   A commit decision that is still pending when the call stops: the credit group finds none and aborts, then the
   decision takes effect and recovery of the debit group, caught up with it, commits.
   */
  lemma PendingDecisionSplits(s: System, t: TxId)
    requires SystemOk(s) && t in s.jobs && s.jobs[t].pc == LogDecision(true)
    ensures
      var p := s.jobs[t].plan;
      p.from in s.machines && p.to in s.machines && t in s.machines[p.from].txs && t in s.machines[p.to].txs
      && var d, c := s.machines[p.from], s.machines[p.to];
         var c1 := ApplyOutcome(c, RecoveryOutcome(c.txs[t], d)).0;
         var d1 := ApplyDecision(d, Proposal(t, p, LogDecision(true))).0;
         var d2 := ApplyOutcome(d1, RecoveryOutcome(d1.txs[t], d1)).0;
         d2.txs[t].phase == Committed && c1.txs[t].phase == Aborted
  {
    hide MachineOk, LateMessageOk, Settle;
    var p := s.jobs[t].plan;
    assert JobOk(s, t, true) && MachineOk(s.machines[p.to]) && MachineOk(s.machines[p.from]);
    IdMatches(s.machines[p.to], t);
    IdMatches(s.machines[p.from], t);
  }
}
