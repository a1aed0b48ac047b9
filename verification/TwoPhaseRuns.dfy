/**
 Every interleaving of transfers, coordinator stops, recoveries and single-shard commands: atomicity
 of each transfer and exact accounting of all money.
 */
module TwoPhaseRuns {
  import opened Bytes
  import opened Ledger
  import opened LedgerInvariant
  import opened ShardMachine
  import opened TwoPhase

  datatype Job = Job(plan: Plan, pc: Pc)

  /** A proposal that reached a group's leader and may be applied any time later, or never, or again. */
  datatype Late = Late(shard: ShardId, command: ShardCommand)

  datatype System = System(machines: map<ShardId, Machine>, jobs: map<TxId, Job>, late: set<Late>)

  datatype Event =
    | Begin(t: TxId, plan: Plan)
    | Drive(t: TxId, delivery: Delivery)
    | Halt(t: TxId)
    | Single(shard: ShardId, command: Command)
    | Inquire(shard: ShardId, t: TxId, view: Machine)
    | Deliver(late: Late)

  function SingleCommand(c: Command): ShardCommand {
    ShardCommand(OP_SINGLE, [], c, false, false, [], [])
  }

  /** Whom recovery asks; records written before the coordinator was named fall back to the first participant. */
  function CoordinatorOf(r: TxRecord): ShardId {
    if r.coordinator == [] && |r.participants| > 0 then r.participants[0] else r.coordinator
  }

  /**
   What recovery proposes for the prepared record r, given the machine of the coordinator group's replica that it
   reads: a group scanned has just been caught up, but any other leader may still have a decision to apply.
   */
  function RecoveryOutcome(r: TxRecord, coordinator: Machine): ShardCommand {
    ShardCommand(OP_OUTCOME, r.id, r.cmd, Decision(coordinator, r.id) == Some(true), r.debit, r.participants, CoordinatorOf(r))
  }

  ghost predicate Prepares(s: System, shard: ShardId, t: TxId) {
    shard in s.machines && t in s.machines[shard].txs && s.machines[shard].txs[t].phase == Prepared
  }

  ghost predicate Enabled(s: System, e: Event) {
    match e
    case Begin(t, p) => t !in s.jobs && p.from in s.machines && p.to in s.machines && p.from != p.to
    case Drive(t, d) => t in s.jobs && s.jobs[t].pc != Stopped && Possible(d)
      && Target(s.jobs[t].plan, s.jobs[t].pc) in s.machines
    case Halt(t) => t in s.jobs
    case Single(shard, _) => shard in s.machines
    case Inquire(shard, t, view) => Prepares(s, shard, t) && t in s.jobs && s.jobs[t].pc == Stopped
      && CoordinatorOf(s.machines[shard].txs[t]) in s.machines
      && (CoordinatorOf(s.machines[shard].txs[t]) == shard ==> view == s.machines[shard])
    case Deliver(l) => l in s.late && l.shard in s.machines
  }

  ghost function On(hash: Str -> nat, s: System, shard: ShardId, c: ShardCommand): System
    requires shard in s.machines
  {
    s.(machines := s.machines[shard := ApplyCommand(hash, s.machines[shard], c).0])
  }

  ghost function DriveNext(hash: Str -> nat, s: System, t: TxId, d: Delivery): System
    requires Enabled(s, Drive(t, d))
  {
    var j := s.jobs[t];
    var shard, c := Target(j.plan, j.pc), Proposal(t, j.plan, j.pc);
    var ok := ApplyCommand(hash, s.machines[shard], c).1.ok;
    var s' := if d.applied then On(hash, s, shard, c) else s;
    s'.(jobs := s.jobs[t := j.(pc := NextPc(j.pc, d.sight, ok))],
        late := if j.pc.LogDecision? then s.late else s.late + {Late(shard, c)})
  }

  ghost function Next(hash: Str -> nat, s: System, e: Event): System
    requires Enabled(s, e)
  {
    match e
    case Begin(t, p) => s.(jobs := s.jobs[t := Job(p, AskDebit)])
    case Drive(t, d) => DriveNext(hash, s, t, d)
    case Halt(t) => s.(jobs := s.jobs[t := s.jobs[t].(pc := Stopped)])
    case Single(shard, c) => On(hash, s, shard, SingleCommand(c))
    case Inquire(shard, t, view) => s.(late := s.late + {Late(shard, RecoveryOutcome(s.machines[shard].txs[t], view))})
    case Deliver(l) => On(hash, s, l.shard, l.command)
  }

  ghost predicate Initial(s: System) {
    (forall x :: x in s.machines ==> s.machines[x] == NEW) && s.jobs == map[] && s.late == {}
  }

  ghost predicate Run(hash: Str -> nat, run: seq<System>, events: seq<Event>) {
    && |run| == |events| + 1 && Initial(run[0])
    && forall i :: 0 <= i < |events| ==> Enabled(run[i], events[i]) && run[i + 1] == Next(hash, run[i], events[i])
  }

  // ----- the invariant -----

  ghost function DebitRecord(s: System, t: TxId): Option<TxRecord>
    requires t in s.jobs
  {
    if s.jobs[t].plan.from in s.machines then RecordOf(s.machines[s.jobs[t].plan.from], t) else None
  }

  ghost function CreditRecord(s: System, t: TxId): Option<TxRecord>
    requires t in s.jobs
  {
    if s.jobs[t].plan.to in s.machines then RecordOf(s.machines[s.jobs[t].plan.to], t) else None
  }

  ghost predicate JobOk(s: System, t: TxId, strict: bool) {
    t in s.jobs ==>
      && s.jobs[t].plan.from in s.machines && s.jobs[t].plan.to in s.machines
      && s.jobs[t].plan.from != s.jobs[t].plan.to
      && PairKept(strict, s.jobs[t].plan, s.jobs[t].pc, DebitRecord(s, t), CreditRecord(s, t))
  }

  /** Only a transfer's two shards know it. */
  ghost predicate Placed(s: System, shard: ShardId, t: TxId) {
    shard in s.machines && t in s.machines[shard].txs ==>
      t in s.jobs && (shard == s.jobs[t].plan.from || shard == s.jobs[t].plan.to)
  }

  ghost predicate LateMessageOk(s: System, l: Late, strict: bool) {
    && l.command.txId in s.jobs
    && LateKept(strict, l.command.txId, s.jobs[l.command.txId].plan, s.jobs[l.command.txId].pc,
                DebitRecord(s, l.command.txId), l.shard, l.command)
    && |l.command.participants| > 0
  }

  ghost predicate MachinesOk(machines: map<ShardId, Machine>) {
    forall x :: x in machines ==> MachineOk(machines[x])
  }

  /** The invariant of the system; strict adds what needs every inquiry to be answered with the current decision. */
  ghost predicate Sane(s: System, strict: bool) {
    && MachinesOk(s.machines)
    && (forall t :: JobOk(s, t, strict))
    && (forall x, t :: Placed(s, x, t))
    && (forall l :: l in s.late ==> LateMessageOk(s, l, strict))
  }

  ghost predicate SystemOk(s: System) { Sane(s, true) }

  /** Whoever answers recovery has applied the decision, if the coordinator group has logged one. */
  ghost predicate Fresh(s: System, e: Event)
    requires Enabled(s, e)
  {
    e.Inquire? ==>
      (Decision(e.view, e.t) == Some(true) <==> Decision(s.machines[CoordinatorOf(s.machines[e.shard].txs[e.t])], e.t) == Some(true))
  }

  ghost predicate FreshRun(hash: Str -> nat, run: seq<System>, events: seq<Event>) {
    Run(hash, run, events) && forall i :: 0 <= i < |events| ==> Enabled(run[i], events[i]) && Fresh(run[i], events[i])
  }

  // ----- steps that do not touch a machine -----

  lemma BeginOk(hash: Str -> nat, s: System, t: TxId, p: Plan, strict: bool)
    requires Sane(s, strict) && Enabled(s, Begin(t, p))
    ensures Sane(Next(hash, s, Begin(t, p)), strict)
  {
    hide MachinesOk, PairKept, LateKept;
    var s' := Next(hash, s, Begin(t, p));
    assert Placed(s, p.from, t) && Placed(s, p.to, t);
    assert PairKept(strict, p, AskDebit, None, None) by { FreshTransfer(p, strict); }
    forall x, u
      ensures Placed(s', x, u)
    {
      assert Placed(s, x, u);
    }
    forall u
      ensures JobOk(s', u, strict)
    {
      assert JobOk(s, u, strict);
    }
  }

  lemma FreshTransfer(p: Plan, strict: bool)
    ensures PairKept(strict, p, AskDebit, None, None)
  {
  }

  lemma HaltJob(hash: Str -> nat, s: System, t: TxId, strict: bool)
    requires Sane(s, strict) && t in s.jobs
    ensures Sane(Next(hash, s, Halt(t)), strict)
  {
    hide MachinesOk, PairKept, LateKept;
    var s' := Next(hash, s, Halt(t));
    var j := s.jobs[t];
    forall u
      ensures JobOk(s', u, strict)
    {
      assert JobOk(s, u, strict);
      if u == t {
        HaltKeeps(strict, t, j.plan, j.pc, DebitRecord(s, t), CreditRecord(s, t), [], SingleCommand(j.plan.cmd));
      }
    }
    forall x, u
      ensures Placed(s', x, u)
    {
      assert Placed(s, x, u);
    }
    forall l | l in s'.late
      ensures LateMessageOk(s', l, strict)
    {
      assert LateMessageOk(s, l, strict);
      if l.command.txId == t {
        assert JobOk(s, t, strict);
        HaltKeeps(strict, t, j.plan, j.pc, DebitRecord(s, t), CreditRecord(s, t), l.shard, l.command);
      }
    }
  }

  /** What recovery proposes is what the coordinator's record says, for good. */
  lemma InquiryLate(s: System, l: Late, e: Event, strict: bool)
    requires e.Inquire? && Enabled(s, e) && Sane(s, strict) && (strict ==> Fresh(s, e))
    requires l == Late(e.shard, RecoveryOutcome(s.machines[e.shard].txs[e.t], e.view))
    ensures LateMessageOk(s, l, strict)
  {
    hide MachineOk, Decision, PairOk;
    assert Placed(s, e.shard, e.t) && JobOk(s, e.t, strict);
    IdMatches(s.machines[e.shard], e.t);
    if strict {
      InquiryStrict(s, l, e);
    }
  }

  lemma InquiryStrict(s: System, l: Late, e: Event)
    requires e.Inquire? && Enabled(s, e) && Fresh(s, e) && JobOk(s, e.t, true) && Placed(s, e.shard, e.t)
    requires s.machines[e.shard].txs[e.t].id == e.t
    requires l == Late(e.shard, RecoveryOutcome(s.machines[e.shard].txs[e.t], e.view))
    ensures LateOk(e.t, s.jobs[e.t].plan, s.jobs[e.t].pc, DebitRecord(s, e.t), l.shard, l.command)
  {
  }

  lemma InquireOk(hash: Str -> nat, s: System, e: Event, strict: bool)
    requires e.Inquire? && Enabled(s, e) && Sane(s, strict) && (strict ==> Fresh(s, e))
    ensures Sane(Next(hash, s, e), strict)
  {
    hide MachinesOk, PairKept, LateKept, RecoveryOutcome;
    var s' := Next(hash, s, e);
    var l := Late(e.shard, RecoveryOutcome(s.machines[e.shard].txs[e.t], e.view));
    InquiryLate(s, l, e, strict);
    forall u
      ensures JobOk(s', u, strict)
    {
      assert JobOk(s, u, strict);
    }
    forall x, u
      ensures Placed(s', x, u)
    {
      assert Placed(s, x, u);
    }
    forall n | n in s'.late
      ensures LateMessageOk(s', n, strict)
    {
      SameLate(s, s', n, strict);
    }
  }

  lemma SameLate(s: System, s': System, l: Late, strict: bool)
    requires s' == s.(late := s'.late)
    ensures LateMessageOk(s', l, strict) == LateMessageOk(s, l, strict)
  {
  }

  lemma IdMatches(m: Machine, t: TxId)
    requires MachineOk(m) && t in m.txs
    ensures m.txs[t].id == t
  {
    hide LedgerOk, Unique, ReserveMatches, LegsMatch;
    assert TxOk(m, t);
  }

  // ----- steps on one machine -----

  lemma OnMachines(hash: Str -> nat, s: System, shard: ShardId, c: ShardCommand)
    requires MachinesOk(s.machines) && shard in s.machines
    ensures MachinesOk(On(hash, s, shard, c).machines)
  {
    hide MachineOk, ApplyCommand;
    MachineStepOk(hash, s.machines[shard], c);
  }

  lemma SingleStep(hash: Str -> nat, s: System, shard: ShardId, c: Command, strict: bool)
    requires Sane(s, strict) && Enabled(s, Single(shard, c))
    ensures Sane(Next(hash, s, Single(shard, c)), strict)
  {
    hide MachinesOk, PairKept, LateKept, ApplyCommand;
    var s' := Next(hash, s, Single(shard, c));
    OnMachines(hash, s, shard, SingleCommand(c));
    SingleKeeps(hash, s.machines[shard], c);
    forall u
      ensures JobOk(s', u, strict)
    {
      assert JobOk(s, u, strict);
    }
    forall x, u
      ensures Placed(s', x, u)
    {
      assert Placed(s, x, u);
    }
    forall l | l in s'.late
      ensures LateMessageOk(s', l, strict)
    {
      assert LateMessageOk(s, l, strict);
    }
  }

  lemma SingleKeeps(hash: Str -> nat, m: Machine, c: Command)
    ensures ApplyCommand(hash, m, SingleCommand(c)).0.txs == m.txs
  {
  }

  /** A proposal of a transfer, in the form all of them have. */
  ghost predicate Proper(s: System, shard: ShardId, c: ShardCommand) {
    && c.txId in s.jobs && shard in s.machines
    && var p := s.jobs[c.txId].plan;
       && (shard == p.from || shard == p.to)
       && |c.participants| > 0
       && (c.op == OP_PREPARE || c.op == OP_OUTCOME
           || (c.op == OP_DECISION && c.txId in s.machines[shard].txs
               && (c.coordinator != [] || s.machines[shard].txs[c.txId].coordinator == [])))
  }

  /** The two records of transfer u after command c on shard. */
  lemma OnRecords(hash: Str -> nat, s: System, shard: ShardId, c: ShardCommand, u: TxId)
    requires MachinesOk(s.machines) && Proper(s, shard, c) && u in s.jobs
    ensures
      var s' := On(hash, s, shard, c);
      var ok := ApplyCommand(hash, s.machines[shard], c).1.ok;
      var p := s.jobs[u].plan;
      && DebitRecord(s', u) == (if u == c.txId && shard == p.from then NextRecord(DebitRecord(s, u), c, ok) else DebitRecord(s, u))
      && CreditRecord(s', u) == (if u == c.txId && shard == p.to then NextRecord(CreditRecord(s, u), c, ok) else CreditRecord(s, u))
  {
    hide MachineOk, ApplyCommand, NextRecord;
    ApplyRecord(hash, s.machines[shard], c, u);
  }

  lemma OnPlaced(hash: Str -> nat, s: System, shard: ShardId, c: ShardCommand, x: ShardId, u: TxId)
    requires MachinesOk(s.machines) && Proper(s, shard, c) && Placed(s, x, u)
    ensures Placed(On(hash, s, shard, c), x, u)
  {
    hide MachineOk, ApplyCommand, NextRecord;
    ApplyRecord(hash, s.machines[shard], c, u);
  }

  lemma DeliverPair(hash: Str -> nat, s: System, l: Late, u: TxId, strict: bool)
    requires Sane(s, strict) && l in s.late && l.shard in s.machines
    ensures JobOk(On(hash, s, l.shard, l.command), u, strict)
  {
    hide MachinesOk, PairKept, LateKept, NextRecord, ApplyCommand;
    assert LateMessageOk(s, l, strict) && JobOk(s, u, strict);
    LateProper(s, l, strict);
    if u in s.jobs {
      OnRecords(hash, s, l.shard, l.command, u);
      if u == l.command.txId {
        var j, ok := s.jobs[u], ApplyCommand(hash, s.machines[l.shard], l.command).1.ok;
        LateKeeps(strict, u, j.plan, j.pc, DebitRecord(s, u), CreditRecord(s, u), l.shard, l.command, ok);
      }
    }
  }

  lemma LateProper(s: System, l: Late, strict: bool)
    requires LateMessageOk(s, l, strict) && l.shard in s.machines
    ensures Proper(s, l.shard, l.command)
  {
  }

  lemma DeliverLate(hash: Str -> nat, s: System, l: Late, n: Late, strict: bool)
    requires Sane(s, strict) && l in s.late && l.shard in s.machines && n in s.late
    ensures LateMessageOk(On(hash, s, l.shard, l.command), n, strict)
  {
    hide MachinesOk, PairKept, LateKept, NextRecord, ApplyCommand;
    assert LateMessageOk(s, l, strict) && LateMessageOk(s, n, strict);
    LateProper(s, l, strict);
    var u := n.command.txId;
    assert JobOk(s, u, strict);
    OnRecords(hash, s, l.shard, l.command, u);
    if u == l.command.txId && l.shard == s.jobs[u].plan.from {
      var j, ok := s.jobs[u], ApplyCommand(hash, s.machines[l.shard], l.command).1.ok;
      LateKeepsLates(strict, u, j.plan, j.pc, DebitRecord(s, u), CreditRecord(s, u), l.command, ok, n.shard, n.command);
    }
  }

  lemma DeliverStep(hash: Str -> nat, s: System, l: Late, strict: bool)
    requires Sane(s, strict) && Enabled(s, Deliver(l))
    ensures Sane(Next(hash, s, Deliver(l)), strict)
  {
    hide MachinesOk, JobOk, Placed, LateMessageOk, ApplyCommand;
    var s' := Next(hash, s, Deliver(l));
    OnMachines(hash, s, l.shard, l.command);
    assert LateMessageOk(s, l, strict);
    LateProper(s, l, strict);
    forall u
      ensures JobOk(s', u, strict)
    {
      DeliverPair(hash, s, l, u, strict);
    }
    forall x, u
      ensures Placed(s', x, u)
    {
      OnPlaced(hash, s, l.shard, l.command, x, u);
    }
    forall n | n in s'.late
      ensures LateMessageOk(s', n, strict)
    {
      DeliverLate(hash, s, l, n, strict);
    }
  }

  // ----- a step of the coordinator -----

  lemma DriveProper(s: System, t: TxId, d: Delivery, strict: bool)
    requires Sane(s, strict) && Enabled(s, Drive(t, d))
    ensures Proper(s, Target(s.jobs[t].plan, s.jobs[t].pc), Proposal(t, s.jobs[t].plan, s.jobs[t].pc))
  {
    hide MachinesOk, LateMessageOk, Placed;
    assert JobOk(s, t, strict);
  }

  /** Both records of transfer u after the coordinator of t took a step. */
  lemma DriveRecords(hash: Str -> nat, s: System, t: TxId, d: Delivery, u: TxId, strict: bool)
    requires Sane(s, strict) && Enabled(s, Drive(t, d)) && u in s.jobs
    ensures
      var j, s' := s.jobs[t], DriveNext(hash, s, t, d);
      var ok := ApplyCommand(hash, s.machines[Target(j.plan, j.pc)], Proposal(t, j.plan, j.pc)).1.ok;
      && DebitRecord(s', u) == (if u == t then DebitAfter(t, j.plan, j.pc, d.applied, ok, DebitRecord(s, u)) else DebitRecord(s, u))
      && CreditRecord(s', u) == (if u == t then CreditAfter(t, j.plan, j.pc, d.applied, ok, CreditRecord(s, u)) else CreditRecord(s, u))
  {
    hide JobOk, Placed, LateMessageOk, MachinesOk, ApplyCommand, NextRecord;
    var j := s.jobs[t];
    DriveProper(s, t, d, strict);
    if d.applied {
      OnRecords(hash, s, Target(j.plan, j.pc), Proposal(t, j.plan, j.pc), u);
    }
  }

  lemma DrivePair(hash: Str -> nat, s: System, t: TxId, d: Delivery, u: TxId, strict: bool)
    requires Sane(s, strict) && Enabled(s, Drive(t, d))
    ensures JobOk(DriveNext(hash, s, t, d), u, strict)
  {
    hide MachinesOk, PairKept, LateKept, NextRecord, ApplyCommand, Possible, NextPc;
    assert JobOk(s, u, strict);
    if u in s.jobs {
      DriveRecords(hash, s, t, d, u, strict);
      var j := s.jobs[t];
      var ok := ApplyCommand(hash, s.machines[Target(j.plan, j.pc)], Proposal(t, j.plan, j.pc)).1.ok;
      if u == t {
        DriveKeeps(strict, t, j.plan, j.pc, DebitRecord(s, t), CreditRecord(s, t), d, ok);
      }
    }
  }

  lemma DriveLateOk(hash: Str -> nat, s: System, t: TxId, d: Delivery, l: Late, strict: bool)
    requires Sane(s, strict) && Enabled(s, Drive(t, d)) && l in DriveNext(hash, s, t, d).late
    ensures LateMessageOk(DriveNext(hash, s, t, d), l, strict)
  {
    hide MachinesOk, PairKept, LateKept, NextRecord, ApplyCommand, Possible, NextPc;
    var j := s.jobs[t];
    var ok := ApplyCommand(hash, s.machines[Target(j.plan, j.pc)], Proposal(t, j.plan, j.pc)).1.ok;
    assert JobOk(s, t, strict);
    if l in s.late {
      assert LateMessageOk(s, l, strict);
      DriveRecords(hash, s, t, d, l.command.txId, strict);
      if l.command.txId == t {
        DriveKeepsLate(strict, t, j.plan, j.pc, DebitRecord(s, t), CreditRecord(s, t), d, ok, l.shard, l.command);
      }
    } else {
      DriveRecords(hash, s, t, d, t, strict);
      DriveKeepsSent(strict, t, j.plan, j.pc, DebitRecord(s, t), CreditRecord(s, t), d, ok);
    }
  }

  lemma DriveStep(hash: Str -> nat, s: System, t: TxId, d: Delivery, strict: bool)
    requires Sane(s, strict) && Enabled(s, Drive(t, d))
    ensures Sane(Next(hash, s, Drive(t, d)), strict)
  {
    hide MachinesOk, JobOk, LateMessageOk, ApplyCommand, Possible, NextPc, Proper;
    var s' := Next(hash, s, Drive(t, d));
    var j := s.jobs[t];
    var shard, c := Target(j.plan, j.pc), Proposal(t, j.plan, j.pc);
    OnMachines(hash, s, shard, c);
    DriveProper(s, t, d, strict);
    forall u
      ensures JobOk(s', u, strict)
    {
      DrivePair(hash, s, t, d, u, strict);
    }
    forall x, u
      ensures Placed(s', x, u)
    {
      assert Placed(s, x, u);
      OnPlaced(hash, s, shard, c, x, u);
    }
    forall l | l in s'.late
      ensures LateMessageOk(s', l, strict)
    {
      DriveLateOk(hash, s, t, d, l, strict);
    }
  }

  // ----- every run -----

  lemma StepOk(hash: Str -> nat, s: System, e: Event, strict: bool)
    requires Sane(s, strict) && Enabled(s, e) && (strict ==> Fresh(s, e))
    ensures Sane(Next(hash, s, e), strict)
  {
    hide Sane, Next;
    match e
    case Begin(t, p) => BeginOk(hash, s, t, p, strict);
    case Drive(t, d) => DriveStep(hash, s, t, d, strict);
    case Halt(t) => HaltJob(hash, s, t, strict);
    case Single(shard, c) => SingleStep(hash, s, shard, c, strict);
    case Inquire(_, _, _) => InquireOk(hash, s, e, strict);
    case Deliver(l) => DeliverStep(hash, s, l, strict);
  }

  lemma InitialOk(s: System, strict: bool)
    requires Initial(s)
    ensures Sane(s, strict)
  {
    hide MachineOk;
    NewOk();
  }

  lemma {:induction false} RunOk(hash: Str -> nat, run: seq<System>, events: seq<Event>, i: nat, strict: bool)
    requires Run(hash, run, events) && i < |run| && (strict ==> FreshRun(hash, run, events))
    ensures Sane(run[i], strict)
    decreases i
  {
    hide Sane, Next, Enabled, Initial, Fresh;
    if i == 0 {
      InitialOk(run[0], strict);
    } else {
      RunOk(hash, run, events, i - 1, strict);
      StepOk(hash, run[i - 1], events[i - 1], strict);
    }
  }

  /** Atomicity: at no moment of any run is a transfer committed on one shard and aborted on the other. */
  lemma Atomicity(hash: Str -> nat, run: seq<System>, events: seq<Event>, i: nat, t: TxId)
    requires FreshRun(hash, run, events) && i < |run| && t in run[i].jobs
    ensures
      var d, c := DebitRecord(run[i], t), CreditRecord(run[i], t);
      !(InPhase(d, Committed) && InPhase(c, Aborted)) && !(InPhase(d, Aborted) && InPhase(c, Committed))
  {
    hide PairOk, LoosePair, FreshRun, MachinesOk, LateMessageOk, Placed;
    assert Run(hash, run, events) by { FreshIsRun(hash, run, events); }
    RunOk(hash, run, events, i, true);
    assert JobOk(run[i], t, true);
    var j := run[i].jobs[t];
    TransferAtomic(j.plan, j.pc, DebitRecord(run[i], t), CreditRecord(run[i], t));
  }

  lemma FreshIsRun(hash: Str -> nat, run: seq<System>, events: seq<Event>)
    requires FreshRun(hash, run, events)
    ensures Run(hash, run, events)
  {
    hide Fresh, Next;
  }
}
