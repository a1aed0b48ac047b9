/**
 Cross-shard transfers: the coordinator of shard/coordinator.go as a sequence of proposals, any number
 of transfers and recoveries interleaved, and proposals that fail, are lost, or take effect late.

 The step of one proposal is atomic on the machine of its group.  What the theorems need of the code's
 callers is in the steps: a transaction id belongs to one transfer, recovery acts on a transfer only
 after its coordinator has stopped, and a decision takes effect when it is proposed or not at all.
 That recovery asks a replica which has applied the decision is a hypothesis of its own.
 */
module TwoPhase {
  import opened Bytes
  import opened Ledger
  import opened ShardMachine

  /** What one call of twoPhase was asked to do. */
  datatype Plan = Plan(cmd: Command, from: ShardId, to: ShardId)

  /** The next proposal of the call; Stopped when it has returned or its process died. */
  datatype Pc =
    | AskDebit
    | AskCredit
    | LogDecision(commit: bool)
    | TellDebit(commit: bool)
    | TellCredit(commit: bool)
    | Stopped

  /** What the proposer learns: the result, that it does not lead, or an error that says nothing. */
  datatype Sight = Replied | NotLeader | Failed

  datatype Delivery = Delivery(applied: bool, sight: Sight)

  predicate Possible(d: Delivery) {
    (d.sight == Replied ==> d.applied) && (d.sight == NotLeader ==> !d.applied)
  }

  function Target(p: Plan, pc: Pc): ShardId {
    if pc == AskCredit || pc.TellCredit? then p.to else p.from
  }

  function Proposal(t: TxId, p: Plan, pc: Pc): ShardCommand {
    var op := match pc
      case AskDebit => OP_PREPARE
      case AskCredit => OP_PREPARE
      case LogDecision(_) => OP_DECISION
      case TellDebit(_) => OP_OUTCOME
      case TellCredit(_) => OP_OUTCOME
      case Stopped => OP_SINGLE;
    var commit := match pc
      case LogDecision(c) => c
      case TellDebit(c) => c
      case TellCredit(c) => c
      case _ => false;
    ShardCommand(op, t, p.cmd, commit, pc != AskCredit && !pc.TellCredit?, [p.from, p.to], p.from)
  }

  /** Control flow of twoPhase and decide. */
  function NextPc(pc: Pc, sight: Sight, ok: bool): Pc {
    match pc
    case AskDebit => if sight != Replied then Stopped else if !ok then LogDecision(false) else AskCredit
    case AskCredit => LogDecision(sight == Replied && ok)
    case LogDecision(c) => if sight == Replied then TellDebit(c) else Stopped
    case TellDebit(c) => TellCredit(c)
    case TellCredit(_) => Stopped
    case Stopped => Stopped
  }

  // ----- a transfer's two records -----

  function RecordOf(m: Machine, t: TxId): Option<TxRecord> {
    if t in m.txs then Some(m.txs[t]) else None
  }

  ghost predicate InPhase(r: Option<TxRecord>, p: Phase) { r.Some? && r.value.phase == p }

  /** The durable commit point: a commit decision in the debit shard's record. */
  ghost predicate CommitDecided(d: Option<TxRecord>) { d.Some? && d.value.decided && d.value.commit }

  /** A record made by this transfer's proposals. */
  ghost predicate Belongs(r: Option<TxRecord>, p: Plan, debit: bool) {
    r.Some? ==>
      && r.value.debit == debit && r.value.cmd == p.cmd && r.value.phase != Unknown
      && (r.value.coordinator == [] || r.value.coordinator == p.from)
      && (r.value.phase == Prepared ==> r.value.coordinator == p.from && r.value.participants == [p.from, p.to])
  }

  ghost predicate Undecided(r: Option<TxRecord>) { InPhase(r, Prepared) && !r.value.decided }

  /** What the coordinator knows at each proposal. */
  ghost predicate PcOk(pc: Pc, d: Option<TxRecord>, c: Option<TxRecord>) {
    match pc
    case AskDebit => d == None && c == None
    case AskCredit => Undecided(d) && c == None
    case LogDecision(commit) =>
      if commit then Undecided(d) && InPhase(c, Prepared) else d.Some? && !CommitDecided(d)
    case TellDebit(commit) => d.Some? && d.value.decided && d.value.commit == commit
    case TellCredit(commit) => d.Some? && d.value.decided && d.value.commit == commit
    case Stopped => true
  }

  /** The inductive invariant of one transfer: debit record d, credit record c. */
  ghost predicate PairOk(p: Plan, pc: Pc, d: Option<TxRecord>, c: Option<TxRecord>) {
    && Belongs(d, p, true) && Belongs(c, p, false)
    && (c.Some? ==> d.Some?)
    && (CommitDecided(d) ==>
          && (InPhase(d, Prepared) || InPhase(d, Committed))
          && (InPhase(c, Prepared) || InPhase(c, Committed)))
    && (InPhase(d, Committed) || InPhase(c, Committed) ==> CommitDecided(d))
    && PcOk(pc, d, c)
  }

  /** What holds of the two records however recovery comes by its answers. */
  ghost predicate LoosePair(p: Plan, pc: Pc, d: Option<TxRecord>, c: Option<TxRecord>) {
    Belongs(d, p, true) && Belongs(c, p, false) && (pc != AskDebit && pc != Stopped ==> d.Some?)
  }

  ghost predicate LooseLate(t: TxId, p: Plan, shard: ShardId, m: ShardCommand) {
    && m.txId == t && (shard == p.from || shard == p.to)
    && (m.op == OP_OUTCOME || m == Proposal(t, p, if shard == p.from then AskDebit else AskCredit))
  }

  /** The invariant of a transfer; strict says whether every inquiry so far was answered with the current decision. */
  ghost predicate PairKept(strict: bool, p: Plan, pc: Pc, d: Option<TxRecord>, c: Option<TxRecord>) {
    LoosePair(p, pc, d, c) && (strict ==> PairOk(p, pc, d, c))
  }

  ghost predicate LateKept(strict: bool, t: TxId, p: Plan, pc: Pc, d: Option<TxRecord>, shard: ShardId, m: ShardCommand) {
    LooseLate(t, p, shard, m) && (strict ==> LateOk(t, p, pc, d, shard, m))
  }

  /** A prepare or outcome that was proposed and may still take effect. */
  ghost predicate LateOk(t: TxId, p: Plan, pc: Pc, d: Option<TxRecord>, shard: ShardId, m: ShardCommand) {
    && m.txId == t
    && if m.op == OP_PREPARE then
         || (shard == p.from && m == Proposal(t, p, AskDebit) && pc != AskDebit)
         || (shard == p.to && m == Proposal(t, p, AskCredit) && pc != AskDebit && pc != AskCredit && d.Some?)
       else
         && m.op == OP_OUTCOME && (shard == p.from || shard == p.to)
         && if m.commit then CommitDecided(d)
            else d.Some? && !CommitDecided(d) && (pc == Stopped || pc == TellDebit(false) || pc == TellCredit(false))
  }

  /** Atomicity: never committed on one shard and aborted on the other. */
  lemma TransferAtomic(p: Plan, pc: Pc, d: Option<TxRecord>, c: Option<TxRecord>)
    requires PairOk(p, pc, d, c)
    ensures !(InPhase(d, Committed) && InPhase(c, Aborted)) && !(InPhase(d, Aborted) && InPhase(c, Committed))
  {
  }

  // ----- what a command does to a record -----

  function VotedRecord(c: ShardCommand, ok: bool): TxRecord {
    if ok then TxRecord(c.txId, Prepared, c.ledger, c.debit, c.participants, c.coordinator, false, false)
    else TxRecord(c.txId, Aborted, c.ledger, c.debit, [], [], true, false)
  }

  /** The record after a prepare, decision or outcome of the same transaction. */
  function NextRecord(r: Option<TxRecord>, c: ShardCommand, ok: bool): Option<TxRecord> {
    if c.op == OP_PREPARE then (if r == None then Some(VotedRecord(c, ok)) else r)
    else if c.op == OP_DECISION then
      if r == None then None
      else Some(r.value.(decided := true, commit := c.commit, participants := c.participants, coordinator := c.coordinator))
    else if r == None || Terminal(r.value.phase) then r
    else Some(r.value.(phase := if c.commit then Committed else Aborted, decided := true, commit := c.commit))
  }

  /** The machine does to its own record what NextRecord says, and nothing to any other. */
  lemma ApplyRecord(hash: Str -> nat, m: Machine, c: ShardCommand, t: TxId)
    requires MachineOk(m) && (c.op == OP_PREPARE || c.op == OP_OUTCOME || (c.op == OP_DECISION && c.txId in m.txs))
    requires c.op == OP_DECISION ==> |c.participants| > 0 && (c.coordinator != [] || m.txs[c.txId].coordinator == [])
    ensures
      var (m', r) := ApplyCommand(hash, m, c);
      && (t != c.txId ==> RecordOf(m', t) == RecordOf(m, t))
      && (t == c.txId ==> RecordOf(m', t) == NextRecord(RecordOf(m, t), c, r.ok))
  {
    hide MachineOk, ApplySingle, Vote, Settle;
    PrepareFresh(m, c.txId);
  }

  // ----- the transfer's invariant is inductive -----

  /** One proposal of the coordinator, seen from the two records. */
  function DebitAfter(t: TxId, p: Plan, pc: Pc, applied: bool, ok: bool, d: Option<TxRecord>): Option<TxRecord> {
    if applied && Target(p, pc) == p.from then NextRecord(d, Proposal(t, p, pc), ok) else d
  }

  function CreditAfter(t: TxId, p: Plan, pc: Pc, applied: bool, ok: bool, c: Option<TxRecord>): Option<TxRecord> {
    if applied && Target(p, pc) == p.to then NextRecord(c, Proposal(t, p, pc), ok) else c
  }

  lemma DriveOk(t: TxId, p: Plan, pc: Pc, d: Option<TxRecord>, c: Option<TxRecord>, dl: Delivery, ok: bool)
    requires PairOk(p, pc, d, c) && p.from != p.to && Possible(dl) && pc != Stopped
    ensures PairOk(p, NextPc(pc, dl.sight, ok), DebitAfter(t, p, pc, dl.applied, ok, d), CreditAfter(t, p, pc, dl.applied, ok, c))
  {
  }

  lemma DriveLate(t: TxId, p: Plan, pc: Pc, d: Option<TxRecord>, c: Option<TxRecord>, dl: Delivery, ok: bool,
                  shard: ShardId, m: ShardCommand)
    requires PairOk(p, pc, d, c) && p.from != p.to && Possible(dl) && pc != Stopped
    requires LateOk(t, p, pc, d, shard, m)
    ensures LateOk(t, p, NextPc(pc, dl.sight, ok), DebitAfter(t, p, pc, dl.applied, ok, d), shard, m)
  {
  }

  /** The proposal itself, unless it is the decision, joins those that may still take effect. */
  lemma DriveSends(t: TxId, p: Plan, pc: Pc, d: Option<TxRecord>, c: Option<TxRecord>, dl: Delivery, ok: bool)
    requires PairOk(p, pc, d, c) && p.from != p.to && Possible(dl) && pc != Stopped && !pc.LogDecision?
    ensures LateOk(t, p, NextPc(pc, dl.sight, ok), DebitAfter(t, p, pc, dl.applied, ok, d), Target(p, pc), Proposal(t, p, pc))
  {
  }

  lemma HaltOk(t: TxId, p: Plan, pc: Pc, d: Option<TxRecord>, c: Option<TxRecord>, shard: ShardId, m: ShardCommand)
    requires PairOk(p, pc, d, c)
    ensures PairOk(p, Stopped, d, c) && (LateOk(t, p, pc, d, shard, m) ==> LateOk(t, p, Stopped, d, shard, m))
  {
  }

  /** A late proposal taking effect on the debit shard. */
  lemma LateDebit(t: TxId, p: Plan, pc: Pc, d: Option<TxRecord>, c: Option<TxRecord>, m: ShardCommand, ok: bool)
    requires PairOk(p, pc, d, c) && p.from != p.to && LateOk(t, p, pc, d, p.from, m)
    ensures PairOk(p, pc, NextRecord(d, m, ok), c)
  {
  }

  lemma LateCredit(t: TxId, p: Plan, pc: Pc, d: Option<TxRecord>, c: Option<TxRecord>, m: ShardCommand, ok: bool)
    requires PairOk(p, pc, d, c) && p.from != p.to && LateOk(t, p, pc, d, p.to, m)
    ensures PairOk(p, pc, d, NextRecord(c, m, ok))
  {
  }

  lemma LateKeepsLate(t: TxId, p: Plan, pc: Pc, d: Option<TxRecord>, c: Option<TxRecord>, m: ShardCommand, ok: bool,
                      shard: ShardId, n: ShardCommand)
    requires PairOk(p, pc, d, c) && p.from != p.to && LateOk(t, p, pc, d, p.from, m) && LateOk(t, p, pc, d, shard, n)
    ensures LateOk(t, p, pc, NextRecord(d, m, ok), shard, n)
  {
  }

  // ----- the same for both forms of the invariant -----

  lemma DriveKeeps(strict: bool, t: TxId, p: Plan, pc: Pc, d: Option<TxRecord>, c: Option<TxRecord>, dl: Delivery,
                   ok: bool)
    requires PairKept(strict, p, pc, d, c) && p.from != p.to && Possible(dl) && pc != Stopped
    ensures PairKept(strict, p, NextPc(pc, dl.sight, ok), DebitAfter(t, p, pc, dl.applied, ok, d), CreditAfter(t, p, pc, dl.applied, ok, c))
  {
    hide PairOk;
    if strict {
      DriveOk(t, p, pc, d, c, dl, ok);
    }
  }

  lemma DriveKeepsLate(strict: bool, t: TxId, p: Plan, pc: Pc, d: Option<TxRecord>, c: Option<TxRecord>, dl: Delivery,
                       ok: bool, shard: ShardId, m: ShardCommand)
    requires PairKept(strict, p, pc, d, c) && p.from != p.to && Possible(dl) && pc != Stopped
    requires LateKept(strict, t, p, pc, d, shard, m)
    ensures LateKept(strict, t, p, NextPc(pc, dl.sight, ok), DebitAfter(t, p, pc, dl.applied, ok, d), shard, m)
  {
    hide PairOk, LateOk, NextRecord, NextPc;
    if strict {
      DriveLate(t, p, pc, d, c, dl, ok, shard, m);
    }
  }

  lemma DriveKeepsSent(strict: bool, t: TxId, p: Plan, pc: Pc, d: Option<TxRecord>, c: Option<TxRecord>, dl: Delivery,
                       ok: bool)
    requires PairKept(strict, p, pc, d, c) && p.from != p.to && Possible(dl) && pc != Stopped && !pc.LogDecision?
    ensures LateKept(strict, t, p, NextPc(pc, dl.sight, ok), DebitAfter(t, p, pc, dl.applied, ok, d), Target(p, pc), Proposal(t, p, pc))
  {
    hide PairOk, LateOk, NextRecord, NextPc;
    if strict {
      DriveSends(t, p, pc, d, c, dl, ok);
    }
  }

  lemma HaltKeeps(strict: bool, t: TxId, p: Plan, pc: Pc, d: Option<TxRecord>, c: Option<TxRecord>, shard: ShardId,
                  m: ShardCommand)
    requires PairKept(strict, p, pc, d, c)
    ensures PairKept(strict, p, Stopped, d, c)
      && (LateKept(strict, t, p, pc, d, shard, m) ==> LateKept(strict, t, p, Stopped, d, shard, m))
  {
    hide PairOk, LateOk;
    if strict {
      HaltOk(t, p, pc, d, c, shard, m);
    }
  }

  lemma LateKeeps(strict: bool, t: TxId, p: Plan, pc: Pc, d: Option<TxRecord>, c: Option<TxRecord>, shard: ShardId,
                  m: ShardCommand, ok: bool)
    requires PairKept(strict, p, pc, d, c) && p.from != p.to && LateKept(strict, t, p, pc, d, shard, m)
    ensures
      if shard == p.from then PairKept(strict, p, pc, NextRecord(d, m, ok), c) else PairKept(strict, p, pc, d, NextRecord(c, m, ok))
  {
    hide PairOk, LateOk;
    if strict {
      if shard == p.from {
        LateDebit(t, p, pc, d, c, m, ok);
      } else {
        LateCredit(t, p, pc, d, c, m, ok);
      }
    }
  }

  lemma LateKeepsLates(strict: bool, t: TxId, p: Plan, pc: Pc, d: Option<TxRecord>, c: Option<TxRecord>,
                       m: ShardCommand, ok: bool, shard: ShardId, n: ShardCommand)
    requires PairKept(strict, p, pc, d, c) && p.from != p.to && LateKept(strict, t, p, pc, d, p.from, m)
      && LateKept(strict, t, p, pc, d, shard, n)
    ensures LateKept(strict, t, p, pc, NextRecord(d, m, ok), shard, n)
  {
    hide PairOk, LateOk, NextRecord;
    if strict {
      LateKeepsLate(t, p, pc, d, c, m, ok, shard, n);
    }
  }

  // ----- one whole call -----

  ghost function Proposed(hash: Str -> nat, ms: map<ShardId, Machine>, x: ShardId, c: ShardCommand, applied: bool): map<ShardId, Machine>
    requires x in ms
  {
    if applied then ms[x := ApplyCommand(hash, ms[x], c).0] else ms
  }

  /** The proposals of one call from pc on, meeting the deliveries env in turn. */
  ghost function Call(hash: Str -> nat, ms: map<ShardId, Machine>, t: TxId, p: Plan, pc: Pc, env: seq<Delivery>): map<ShardId, Machine>
    requires p.from in ms && p.to in ms
    decreases |env|
  {
    if pc == Stopped || env == [] then ms
    else
      var x, c := Target(p, pc), Proposal(t, p, pc);
      var ok := ApplyCommand(hash, ms[x], c).1.ok;
      Call(hash, Proposed(hash, ms, x, c, env[0].applied), t, p, NextPc(pc, env[0].sight, ok), env[1..])
  }
}
