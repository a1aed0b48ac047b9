/**
 Recovery reads the decision from the local replica of the coordinator group, which may not have applied
 everything its group has committed.  A group caught up after the call stopped shows the decision for good;
 one that was not can split a transfer.
 */
module TwoPhaseViews {
  import opened Bytes
  import opened Ledger
  import opened ShardMachine
  import opened TwoPhase
  import opened TwoPhaseRuns

  /** The replica asked at step i shows the coordinator group as it was at some moment after the call had stopped. */
  ghost predicate CaughtUp(run: seq<System>, events: seq<Event>, i: nat)
    requires i < |events| < |run|
  {
    events[i].Inquire? ==> exists h: nat :: h <= i && AsOf(run, events[i], h, i)
  }

  ghost predicate AsOf(run: seq<System>, e: Event, h: nat, i: nat)
    requires h <= i < |run| && e.Inquire?
  {
    && e.t in run[h].jobs && run[h].jobs[e.t].pc == Stopped
    && Prepares(run[i], e.shard, e.t)
    && var c := CoordinatorOf(run[i].machines[e.shard].txs[e.t]);
       c in run[h].machines && e.view == run[h].machines[c]
  }

  // ----- nothing decides a stopped transfer -----

  ghost predicate Steady(s: System, s': System, t: TxId) {
    && t in s.jobs && t in s'.jobs && s'.jobs[t].plan == s.jobs[t].plan && s'.jobs[t].pc == Stopped
    && (CommitDecided(DebitRecord(s', t)) <==> CommitDecided(DebitRecord(s, t)))
  }

  lemma LateSteady(t: TxId, p: Plan, d: Option<TxRecord>, c: Option<TxRecord>, m: ShardCommand, ok: bool)
    requires PairOk(p, Stopped, d, c) && LateOk(t, p, Stopped, d, p.from, m) && p.from != p.to
    ensures CommitDecided(NextRecord(d, m, ok)) <==> CommitDecided(d)
  {
  }

  lemma StepSteady(hash: Str -> nat, s: System, e: Event, t: TxId)
    requires SystemOk(s) && Enabled(s, e) && t in s.jobs && s.jobs[t].pc == Stopped
    ensures Steady(s, Next(hash, s, e), t)
  {
    hide PairOk, LateOk, MachinesOk, NextRecord, ApplyCommand, Proper;
    assert JobOk(s, t, true);
    match e
    case Drive(u, d) => DriveRecords(hash, s, u, d, t, true);
    case Deliver(l) =>
      assert LateMessageOk(s, l, true);
      LateProper(s, l, true);
      OnRecords(hash, s, l.shard, l.command, t);
      if l.command.txId == t && l.shard == s.jobs[t].plan.from {
        LateSteady(t, s.jobs[t].plan, DebitRecord(s, t), CreditRecord(s, t), l.command,
                   ApplyCommand(hash, s.machines[l.shard], l.command).1.ok);
      }
    case Single(x, c) => SingleKeeps(hash, s.machines[x], c);
    case _ =>
  }

  lemma {:induction false} RunSteady(hash: Str -> nat, run: seq<System>, events: seq<Event>, h: nat, i: nat, t: TxId)
    requires Run(hash, run, events) && h <= i < |run| && t in run[h].jobs && run[h].jobs[t].pc == Stopped
    requires forall k :: h <= k < i ==> SystemOk(run[k])
    ensures Steady(run[h], run[i], t)
    decreases i
  {
    hide SystemOk, Next, Enabled, Initial;
    if h < i {
      RunSteady(hash, run, events, h, i - 1, t);
      StepSteady(hash, run[i - 1], events[i - 1], t);
    }
  }

  /** A coordinator's decision is its debit record's. */
  lemma DecisionIsDebit(s: System, shard: ShardId, t: TxId)
    requires SystemOk(s) && Prepares(s, shard, t)
    ensures t in s.jobs && CoordinatorOf(s.machines[shard].txs[t]) == s.jobs[t].plan.from
      && s.jobs[t].plan.from in s.machines
    ensures Decision(s.machines[s.jobs[t].plan.from], t) == Some(true) <==> CommitDecided(DebitRecord(s, t))
  {
    hide MachinesOk, LateMessageOk;
    assert Placed(s, shard, t) && JobOk(s, t, true);
  }

  /** An inquiry after catching up is answered with the decision as it stands. */
  lemma CaughtUpStep(hash: Str -> nat, run: seq<System>, events: seq<Event>, i: nat)
    requires Run(hash, run, events) && i < |events| && CaughtUp(run, events, i)
    requires forall k :: 0 <= k <= i ==> SystemOk(run[k])
    ensures Enabled(run[i], events[i]) && Fresh(run[i], events[i])
  {
    hide SystemOk, Next, Initial, CoordinatorOf;
    var e := events[i];
    if e.Inquire? {
      var h: nat :| h <= i && AsOf(run, e, h, i);
      RunSteady(hash, run, events, h, i, e.t);
      DecisionIsDebit(run[i], e.shard, e.t);
      ViewDecides(run[h], e.t);
    }
  }

  lemma ViewDecides(s: System, t: TxId)
    requires t in s.jobs && s.jobs[t].plan.from in s.machines
    ensures Decision(s.machines[s.jobs[t].plan.from], t) == Some(true) <==> CommitDecided(DebitRecord(s, t))
  {
  }

  /** So a run whose every inquiry follows a catch-up is one in which recovery is answered well. */
  lemma {:induction false} CaughtUpFresh(hash: Str -> nat, run: seq<System>, events: seq<Event>)
    requires Run(hash, run, events) && forall i :: 0 <= i < |events| ==> CaughtUp(run, events, i)
    ensures FreshRun(hash, run, events)
  {
    hide SystemOk, Next, Initial, CaughtUp, Fresh;
    forall i | 0 <= i < |events|
      ensures Enabled(run[i], events[i]) && Fresh(run[i], events[i])
    {
      CaughtUpPrefix(hash, run, events, i);
      CaughtUpStep(hash, run, events, i);
    }
  }

  lemma {:induction false} CaughtUpPrefix(hash: Str -> nat, run: seq<System>, events: seq<Event>, i: nat)
    requires Run(hash, run, events) && i < |run| && forall k :: 0 <= k < |events| ==> CaughtUp(run, events, k)
    ensures forall k :: 0 <= k <= i ==> SystemOk(run[k])
    decreases i
  {
    hide Sane, Next, Enabled, Initial, CaughtUp, Fresh;
    if i == 0 {
      InitialOk(run[0], true);
    } else {
      CaughtUpPrefix(hash, run, events, i - 1);
      CaughtUpStep(hash, run, events, i - 1);
      StepOk(hash, run[i - 1], events[i - 1], true);
    }
  }

  // ----- a logged commit is never taken back -----

  lemma DriveCommitStays(t: TxId, p: Plan, pc: Pc, d: Option<TxRecord>, c: Option<TxRecord>, applied: bool, ok: bool)
    requires PairOk(p, pc, d, c) && p.from != p.to && CommitDecided(d) && pc != Stopped
    ensures CommitDecided(DebitAfter(t, p, pc, applied, ok, d))
  {
  }

  lemma LateCommitStays(t: TxId, p: Plan, pc: Pc, d: Option<TxRecord>, c: Option<TxRecord>, m: ShardCommand, ok: bool)
    requires PairOk(p, pc, d, c) && LateOk(t, p, pc, d, p.from, m) && p.from != p.to && CommitDecided(d)
    ensures CommitDecided(NextRecord(d, m, ok))
  {
  }

  lemma StepCommitStays(hash: Str -> nat, s: System, e: Event, t: TxId)
    requires SystemOk(s) && Enabled(s, e) && t in s.jobs && CommitDecided(DebitRecord(s, t))
    ensures t in Next(hash, s, e).jobs && CommitDecided(DebitRecord(Next(hash, s, e), t))
    ensures Next(hash, s, e).jobs[t].plan == s.jobs[t].plan
  {
    hide PairOk, LateOk, MachinesOk, NextRecord, ApplyCommand, Proper, NextPc;
    assert JobOk(s, t, true);
    var j := s.jobs[t];
    match e
    case Drive(u, d) =>
      DriveRecords(hash, s, u, d, t, true);
      if u == t {
        DriveCommitStays(t, j.plan, j.pc, DebitRecord(s, t), CreditRecord(s, t), d.applied,
                         ApplyCommand(hash, s.machines[Target(j.plan, j.pc)], Proposal(t, j.plan, j.pc)).1.ok);
      }
    case Deliver(l) =>
      assert LateMessageOk(s, l, true);
      LateProper(s, l, true);
      OnRecords(hash, s, l.shard, l.command, t);
      if l.command.txId == t && l.shard == j.plan.from {
        LateCommitStays(t, j.plan, j.pc, DebitRecord(s, t), CreditRecord(s, t), l.command,
                        ApplyCommand(hash, s.machines[l.shard], l.command).1.ok);
      }
    case Single(x, c) => SingleKeeps(hash, s.machines[x], c);
    case _ =>
  }

  /** So an earlier machine of a group never shows a commit the group has not logged. */
  lemma {:induction false} CommitStays(hash: Str -> nat, run: seq<System>, events: seq<Event>, h: nat, i: nat, t: TxId)
    requires FreshRun(hash, run, events) && h <= i < |run| && t in run[h].jobs && CommitDecided(DebitRecord(run[h], t))
    ensures t in run[i].jobs && run[i].jobs[t].plan == run[h].jobs[t].plan && CommitDecided(DebitRecord(run[i], t))
    decreases i
  {
    hide Sane, Next, Enabled, Initial, Fresh, CommitDecided;
    if h < i {
      CommitStays(hash, run, events, h, i - 1, t);
      RunOk(hash, run, events, i - 1, true);
      StepCommitStays(hash, run[i - 1], events[i - 1], t);
    }
  }

  // ----- an inquiry is safe exactly if its view is current -----

  /** Any number of further steps from s, with recovery answered well from now on. */
  ghost predicate Onward(hash: Str -> nat, s: System, run: seq<System>, events: seq<Event>) {
    && |run| == |events| + 1 && run[0] == s
    && forall i :: 0 <= i < |events| ==>
      Enabled(run[i], events[i]) && Fresh(run[i], events[i]) && run[i + 1] == Next(hash, run[i], events[i])
  }

  ghost predicate Split(s: System, t: TxId) {
    && t in s.jobs
    && var d, c := DebitRecord(s, t), CreditRecord(s, t);
       (InPhase(d, Committed) && InPhase(c, Aborted)) || (InPhase(d, Aborted) && InPhase(c, Committed))
  }

  lemma {:induction false} OnwardOk(hash: Str -> nat, s: System, run: seq<System>, events: seq<Event>, i: nat)
    requires SystemOk(s) && Onward(hash, s, run, events) && i < |run|
    ensures SystemOk(run[i])
    decreases i
  {
    hide Sane, Next, Enabled, Fresh;
    if i > 0 {
      OnwardOk(hash, s, run, events, i - 1);
      StepOk(hash, run[i - 1], events[i - 1], true);
    }
  }

  lemma OkNotSplit(s: System, t: TxId)
    requires SystemOk(s)
    ensures !Split(s, t)
  {
    hide MachinesOk, LateMessageOk, Placed;
    assert JobOk(s, t, true);
  }

  /** One outcome proposed by recovery and applied. */
  lemma OutcomeApplied(hash: Str -> nat, s: System, e: Event, l: Late)
    requires Sane(s, false) && e.Inquire? && Enabled(s, e)
      && l == Late(e.shard, RecoveryOutcome(s.machines[e.shard].txs[e.t], e.view))
    requires e.t in s.jobs && (e.shard == s.jobs[e.t].plan.from || e.shard == s.jobs[e.t].plan.to)
    ensures Enabled(Next(hash, s, e), Deliver(l)) && Fresh(Next(hash, s, e), Deliver(l))
    ensures
      var s' := Next(hash, Next(hash, s, e), Deliver(l));
      var phase := if Decision(e.view, e.t) == Some(true) then Committed else Aborted;
      && Sane(s', false) && s'.jobs == s.jobs && s'.machines.Keys == s.machines.Keys
      && (forall x :: x in s.machines && x != e.shard ==> s'.machines[x] == s.machines[x])
      && InPhase(RecordOf(s'.machines[e.shard], e.t), phase)
  {
    hide MachineOk, LateMessageOk, Placed, ApplyCommand, Decision, LoosePair;
    IdMatches(s.machines[e.shard], e.t);
    var s1 := Next(hash, s, e);
    StepOk(hash, s, e, false);
    StepOk(hash, s1, Deliver(l), false);
    OutcomeRecord(hash, s.machines[e.shard], e.t, l.command, s);
  }

  lemma OutcomeRecord(hash: Str -> nat, m: Machine, t: TxId, c: ShardCommand, s: System)
    requires MachinesOk(s.machines) && m in s.machines.Values && t in m.txs && m.txs[t].phase == Prepared
    requires c.op == OP_OUTCOME && c.txId == m.txs[t].id
    ensures InPhase(RecordOf(ApplyCommand(hash, m, c).0, t), if c.commit then Committed else Aborted)
  {
    hide MachineOk, ApplyCommand;
    IdMatches(m, t);
    ApplyRecord(hash, m, c, t);
  }

  /** The coordinator group's own record, still prepared, with the commit logged. */
  lemma DebitInquiry(s: System, t: TxId)
    requires Sane(s, false) && t in s.jobs && s.jobs[t].pc == Stopped && InPhase(DebitRecord(s, t), Prepared)
    ensures
      var p := s.jobs[t].plan;
      && p.from in s.machines && Enabled(s, Inquire(p.from, t, s.machines[p.from]))
      && Fresh(s, Inquire(p.from, t, s.machines[p.from]))
  {
    hide MachinesOk, LateMessageOk, Decision;
    assert JobOk(s, t, false);
  }

  lemma StaleFacts(s: System, e: Event)
    requires SystemOk(s) && e.Inquire? && Enabled(s, e) && !Fresh(s, e) && Decision(e.view, e.t) != Some(true)
    ensures Sane(s, false) && e.t in s.jobs && s.jobs[e.t].pc == Stopped
    ensures
      var p := s.jobs[e.t].plan;
      && p.from in s.machines && p.to in s.machines && p.from != p.to && e.shard == p.to
      && Decision(s.machines[p.from], e.t) == Some(true)
      && (InPhase(DebitRecord(s, e.t), Prepared) || InPhase(DebitRecord(s, e.t), Committed))
  {
    hide MachinesOk, LooseLate, LateOk;
    DecisionIsDebit(s, e.shard, e.t);
    assert Placed(s, e.shard, e.t) && JobOk(s, e.t, true);
    forall t
      ensures JobOk(s, t, false)
    {
      assert JobOk(s, t, true);
    }
    forall l | l in s.late
      ensures LateMessageOk(s, l, false)
    {
      assert LateMessageOk(s, l, true);
    }
  }

  /** Read from a replica that has yet to apply the decision, a logged commit aborts the credit while the debit commits. */
  lemma StaleInquirySplits(hash: Str -> nat, s: System, e: Event) returns (run: seq<System>, events: seq<Event>)
    requires SystemOk(s) && e.Inquire? && Enabled(s, e) && !Fresh(s, e) && Decision(e.view, e.t) != Some(true)
    ensures Onward(hash, Next(hash, s, e), run, events) && Split(run[|run| - 1], e.t)
  {
    hide Sane, Next, RecoveryOutcome, Enabled, Fresh, Decision;
    StaleFacts(s, e);
    var p := s.jobs[e.t].plan;
    var s1, l1 := Next(hash, s, e), Late(e.shard, ShownOutcome(s, e));
    OutcomeApplied(hash, s, e, l1);
    var s2 := Next(hash, s1, Deliver(l1));
    if InPhase(DebitRecord(s, e.t), Committed) {
      run, events := [s1, s2], [Deliver(l1)];
    } else {
      DebitInquiry(s2, e.t);
      var e3 := Inquire(p.from, e.t, s2.machines[p.from]);
      var l3 := Late(p.from, ShownOutcome(s2, e3));
      OutcomeApplied(hash, s2, e3, l3);
      var s3 := Next(hash, s2, e3);
      run, events := [s1, s2, s3, Next(hash, s3, Deliver(l3))], [Deliver(l1), e3, Deliver(l3)];
    }
  }

  ghost function ShownOutcome(s: System, e: Event): ShardCommand
    requires e.Inquire? && Enabled(s, e)
  {
    RecoveryOutcome(s.machines[e.shard].txs[e.t], e.view)
  }

  /**
   Exactly: asking a replica that shows no decision its group has not made is safe, whatever happens next, if and
   only if it shows the one its group has made.
   */
  lemma InquiryExactly(hash: Str -> nat, s: System, e: Event)
    requires SystemOk(s) && e.Inquire? && Enabled(s, e)
    requires Decision(e.view, e.t) == Some(true) ==>
      Decision(s.machines[CoordinatorOf(s.machines[e.shard].txs[e.t])], e.t) == Some(true)
    ensures Fresh(s, e) <==>
      forall run, events :: Onward(hash, Next(hash, s, e), run, events) ==> !Split(run[|run| - 1], e.t)
  {
    hide Sane, Next, Enabled, Split, RecoveryOutcome, Decision;
    if Fresh(s, e) {
      StepOk(hash, s, e, true);
      forall run, events | Onward(hash, Next(hash, s, e), run, events)
        ensures !Split(run[|run| - 1], e.t)
      {
        OnwardLast(hash, Next(hash, s, e), run, events, e.t);
      }
    } else {
      var run, events := StaleInquirySplits(hash, s, e);
    }
  }

  lemma OnwardLast(hash: Str -> nat, s: System, run: seq<System>, events: seq<Event>, t: TxId)
    requires SystemOk(s) && Onward(hash, s, run, events)
    ensures !Split(run[|run| - 1], t)
  {
    hide Sane, Next, Enabled, Fresh, Split;
    OnwardOk(hash, s, run, events, |run| - 1);
    OkNotSplit(run[|run| - 1], t);
  }

  /**
   And such an inquiry can come about in any transfer whose votes are in: the commit is logged and acknowledged,
   the call stops, and the credit group asks a leader of the debit group that has yet to apply the decision.
   */
  lemma StaleInquiryArises(hash: Str -> nat, s: System, t: TxId)
    requires SystemOk(s) && t in s.jobs && s.jobs[t].pc == LogDecision(true)
    ensures
      var p := s.jobs[t].plan;
      var logged := Drive(t, Delivery(true, Replied));
      && p.from in s.machines && Enabled(s, logged)
      && var s1 := Next(hash, s, logged);
         && Enabled(s1, Halt(t))
         && var s2 := Next(hash, s1, Halt(t));
            && SystemOk(s2) && Enabled(s2, Inquire(p.to, t, s.machines[p.from]))
            && !Fresh(s2, Inquire(p.to, t, s.machines[p.from]))
            && Decision(s.machines[p.from], t) != Some(true)
  {
    hide Sane, ApplyCommand, NextRecord, CoordinatorOf, Fresh;
    LoggedFacts(s, t);
    var logged := Drive(t, Delivery(true, Replied));
    DriveRecords(hash, s, t, logged.delivery, t, true);
    var s1 := Next(hash, s, logged);
    NotInquiry(s, logged);
    NotInquiry(s1, Halt(t));
    StepOk(hash, s, logged, true);
    StepOk(hash, s1, Halt(t), true);
    var p := s.jobs[t].plan;
    var ok := ApplyCommand(hash, s.machines[p.from], Proposal(t, p, LogDecision(true))).1.ok;
    LoggedRecord(s, t, ok);
    StaleHere(Next(hash, s1, Halt(t)), s.machines[p.from], t);
  }

  lemma NotInquiry(s: System, e: Event)
    requires Enabled(s, e) && !e.Inquire?
    ensures Fresh(s, e)
  {
  }

  lemma LoggedFacts(s: System, t: TxId)
    requires SystemOk(s) && t in s.jobs && s.jobs[t].pc == LogDecision(true)
    ensures
      var p := s.jobs[t].plan;
      p.from in s.machines && p.to in s.machines && p.from != p.to && Target(p, LogDecision(true)) == p.from
      && Decision(s.machines[p.from], t) != Some(true) && InPhase(CreditRecord(s, t), Prepared)
  {
    hide MachinesOk, LateMessageOk;
    assert JobOk(s, t, true);
  }

  lemma StaleHere(s: System, view: Machine, t: TxId)
    requires SystemOk(s) && t in s.jobs && s.jobs[t].pc == Stopped && CommitDecided(DebitRecord(s, t))
      && InPhase(CreditRecord(s, t), Prepared)
    requires Decision(view, t) != Some(true)
    ensures
      var e := Inquire(s.jobs[t].plan.to, t, view);
      Enabled(s, e) && !Fresh(s, e)
  {
    hide MachinesOk, LateMessageOk;
    assert JobOk(s, t, true);
  }

  lemma LoggedRecord(s: System, t: TxId, ok: bool)
    requires SystemOk(s) && t in s.jobs && s.jobs[t].pc == LogDecision(true)
    ensures
      var p := s.jobs[t].plan;
      CommitDecided(NextRecord(DebitRecord(s, t), Proposal(t, p, LogDecision(true)), ok))
  {
    hide MachinesOk, LateMessageOk;
    assert JobOk(s, t, true);
  }
}
