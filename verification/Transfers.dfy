/**
 What one cross-shard transfer does to the money when every proposal is answered, from the first prepare to the
 last outcome.
 */
module Transfers {
  import opened Bytes
  import opened Ledger
  import opened LedgerInvariant
  import opened LedgerEffects
  import opened ShardMachine
  import opened TwoPhase
  import opened Coordinator

  type Machines = map<ShardId, Machine>

  /** The debit side can promise the money. */
  ghost predicate Funded(l: Ledger, c: Command) {
    0 < c.amount && c.from in l.balances && c.amount <= Available(l, c.from)
  }

  /** The credit side can take it. */
  ghost predicate Payable(l: Ledger, c: Command) { 0 < c.amount && c.to in l.balances }

  /** The balances of the credit side once told to commit: a full account takes nothing. */
  ghost function Credited(l: Ledger, c: Command): map<AccountId, Money>
    requires Payable(l, c)
  {
    if l.balances[c.to] + c.amount <= MAX_MONEY then l.balances[c.to := l.balances[c.to] + c.amount] else l.balances
  }

  ghost function Asked(hash: Str -> nat, m: Machine, t: TxId, p: Plan, pc: Pc): Machine {
    ApplyCommand(hash, m, Proposal(t, p, pc)).0
  }

  // ----- the two sides -----

  /** A participant votes yes exactly if it can keep the promise. */
  lemma VotesExactly(hash: Str -> nat, m: Machine, t: TxId, p: Plan)
    requires MachineOk(m) && t !in m.txs
    ensures ApplyCommand(hash, m, Proposal(t, p, AskDebit)).1.ok <==> Funded(m.ledger, p.cmd)
    ensures ApplyCommand(hash, m, Proposal(t, p, AskCredit)).1.ok <==> Payable(m.ledger, p.cmd)
  {
    hide MachineOk, Available;
    PrepareFresh(m, t);
  }

  lemma DebitLeg(hash: Str -> nat, m: Machine, t: TxId, p: Plan)
    requires MachineOk(m) && t !in m.txs && Funded(m.ledger, p.cmd)
    ensures
      var a := p.cmd.from;
      var m3 := Asked(hash, Asked(hash, Asked(hash, m, t, p, AskDebit), t, p, LogDecision(true)), t, p, TellDebit(true));
      && m3.ledger.balances == m.ledger.balances[a := m.ledger.balances[a] - p.cmd.amount]
      && m3.ledger.reserves == m.ledger.reserves && t in m3.txs && m3.txs[t].phase == Committed
  {
    hide MachineOk, Available, CommitDebit;
    PrepareFresh(m, t);
    MachineCovered(m);
    DebitLands(m.ledger, t, p.cmd, p.cmd.ts);
  }

  /** Money promised and then taken: the balance drops by it and the hold is gone. */
  lemma DebitLands(l: Ledger, t: TxId, c: Command, ts: Timestamp)
    requires Covered(l) && t !in l.reserves && Funded(l, c)
    ensures
      var l' := CommitDebit(PrepareDebit(l, t, c.from, c.amount).0, t, ts).0;
      l'.balances == l.balances[c.from := l.balances[c.from] - c.amount] && l'.reserves == l.reserves
  {
    hide Covered, Available, Wrap, DebitKey, Reserved;
    ReservedBounds(l, c.from);
    assert l.reserves[t := Reserve(t, c.from, c.amount)] - {t} == l.reserves;
  }

  lemma MachineCovered(m: Machine)
    requires MachineOk(m)
    ensures Covered(m.ledger)
  {
    hide Audited, KeysOnce, TxOk;
  }

  lemma CreditLeg(hash: Str -> nat, m: Machine, t: TxId, p: Plan)
    requires MachineOk(m) && t !in m.txs && Payable(m.ledger, p.cmd)
    ensures
      var m2 := Asked(hash, Asked(hash, m, t, p, AskCredit), t, p, TellCredit(true));
      && m2.ledger.balances == Credited(m.ledger, p.cmd)
      && m2.ledger.reserves == m.ledger.reserves && t in m2.txs && m2.txs[t].phase == Committed
  {
    hide LedgerOk, Unique, CreditKey, DebitKey, Posted, CommitCredit, PrepareDebit, Credited;
    assert TxOk(m, t);
    CreditLands(m.ledger, t, p.cmd, p.cmd.ts);
  }

  lemma CreditLands(l: Ledger, t: TxId, c: Command, ts: Timestamp)
    requires LedgerOk(l) && CreditKey(t) !in l.applied && Payable(l, c)
    ensures
      var l' := CommitCredit(l, t, c.to, c.amount, ts).0;
      l'.balances == Credited(l, c) && l'.reserves == l.reserves
  {
    hide LedgerOk, CreditKey, CommitCredit, Overflows;
    CreditEffect(l, t, c.to, c.amount, ts);
    if l.balances[c.to] + c.amount <= MAX_MONEY {
      CreditPosts(l, t, c.to, c.amount, ts);
    } else {
      BalanceNonNegative(l, c.to);
      GuardExact(l, c.to, c.amount);
    }
  }

  /** Aborting releases what a yes vote held; a no vote held nothing. */
  lemma DebitAborted(hash: Str -> nat, m: Machine, t: TxId, p: Plan)
    requires MachineOk(m) && t !in m.txs
    ensures
      var m3 := Asked(hash, Asked(hash, Asked(hash, m, t, p, AskDebit), t, p, LogDecision(false)), t, p, TellDebit(false));
      m3.ledger == m.ledger && t in m3.txs && m3.txs[t].phase == Aborted
  {
    hide MachineOk, Available;
    PrepareFresh(m, t);
    assert m.ledger.reserves[t := Reserve(t, p.cmd.from, p.cmd.amount)] - {t} == m.ledger.reserves;
  }

  lemma CreditAborted(hash: Str -> nat, m: Machine, t: TxId, p: Plan)
    requires MachineOk(m) && t !in m.txs
    ensures Asked(hash, Asked(hash, m, t, p, AskCredit), t, p, TellCredit(false)).ledger == m.ledger
    ensures Asked(hash, m, t, p, TellCredit(false)).ledger == m.ledger
  {
    hide MachineOk, PrepareDebit;
    PrepareFresh(m, t);
  }

  // ----- every prepare and every outcome -----

  /**
   A prepare is answered yes if this shard has promised already, or is new here and the promise can be kept; a new
   one leaves a record of the vote, and a hold if it was a yes to a debit.
   */
  lemma PrepareExactly(m: Machine, c: ShardCommand)
    requires MachineOk(m)
    ensures
      var (m', r) := ApplyPrepare(m, c);
      if c.txId in m.txs then m' == m && (r.ok <==> m.txs[c.txId].phase == Prepared && !m.txs[c.txId].decided)
      else
        && (r.ok <==> if c.debit then Funded(m.ledger, c.ledger) else Payable(m.ledger, c.ledger))
        && m'.txs.Keys == m.txs.Keys + {c.txId} && (forall t :: t in m.txs ==> m'.txs[t] == m.txs[t])
        && m'.txs[c.txId].phase == (if r.ok then Prepared else Aborted) && m'.txs[c.txId].cmd == c.ledger
        && m'.ledger == if r.ok && c.debit
                        then m.ledger.(reserves := m.ledger.reserves[c.txId := Reserve(c.txId, c.ledger.from, c.ledger.amount)])
                        else m.ledger
  {
    hide LedgerOk, Unique, Available, CreditKey, DebitKey;
    PrepareFresh(m, c.txId);
    assert TxOk(m, c.txId);
  }

  /**
   An outcome settles a prepared record for good: a debit takes what is held or releases it, a credit arrives if it
   fits or does not happen.
   */
  lemma OutcomeSettles(m: Machine, c: ShardCommand)
    requires MachineOk(m) && c.txId in m.txs && m.txs[c.txId].phase == Prepared
    ensures
      var m', rec := ApplyOutcome(m, c).0, m.txs[c.txId];
      && m'.txs == m.txs[c.txId := rec.(phase := if c.commit then Committed else Aborted, decided := true, commit := c.commit)]
      && if rec.debit then Taken(m.ledger, m'.ledger, c.txId, rec.cmd, c.commit)
         else Given(m.ledger, m'.ledger, rec.cmd, c.commit)
  {
    hide LedgerOk, Unique, CommitDebit, CommitCredit, AbortTx, CreditKey, DebitKey, Posted, Free, Credited;
    assert TxOk(m, c.txId);
    var rec, ts := m.txs[c.txId], OutcomeTimestamp(c, m.txs[c.txId]);
    if rec.debit {
      HoldCounts(m.ledger, c.txId);
      DebitExactly(m.ledger, c.txId, ts);
    } else {
      CreditLands(m.ledger, c.txId, rec.cmd, ts);
      assert m.ledger.reserves - {c.txId} == m.ledger.reserves;
    }
    ReleaseExactly(m.ledger, c.txId);
  }

  /** The debit side of an outcome. */
  ghost predicate Taken(l: Ledger, l': Ledger, t: TxId, c: Command, commit: bool) {
    && c.from in l.balances && 0 < c.amount <= l.balances[c.from] && l'.reserves == l.reserves - {t}
    && l'.balances == if commit then l.balances[c.from := l.balances[c.from] - c.amount] else l.balances
  }

  /** The credit side. */
  ghost predicate Given(l: Ledger, l': Ledger, c: Command, commit: bool) {
    && Payable(l, c) && l'.reserves == l.reserves
    && l'.balances == if commit then Credited(l, c) else l.balances
  }

  // ----- the whole call -----

  ghost predicate Answered(env: seq<Delivery>) {
    |env| == 5 && forall i :: 0 <= i < 5 ==> env[i] == Delivery(true, Replied)
  }

  /** Both shards of a call, run side by side from pc on. */
  ghost function Sides(hash: Str -> nat, d: Machine, c: Machine, t: TxId, p: Plan, pc: Pc): (Machine, Machine)
    decreases Steps(pc)
  {
    match pc
    case Stopped => (d, c)
    case AskDebit =>
      var r := ApplyCommand(hash, d, Proposal(t, p, pc));
      Sides(hash, r.0, c, t, p, if r.1.ok then AskCredit else LogDecision(false))
    case AskCredit =>
      var r := ApplyCommand(hash, c, Proposal(t, p, pc));
      Sides(hash, d, r.0, t, p, LogDecision(r.1.ok))
    case LogDecision(commit) => Sides(hash, Asked(hash, d, t, p, pc), c, t, p, TellDebit(commit))
    case TellDebit(commit) => Sides(hash, Asked(hash, d, t, p, pc), c, t, p, TellCredit(commit))
    case TellCredit(_) => (d, Asked(hash, c, t, p, pc))
  }

  lemma {:induction false} CallSides(hash: Str -> nat, ms: Machines, t: TxId, p: Plan, pc: Pc, env: seq<Delivery>)
    requires p.from in ms && p.to in ms && p.from != p.to && |env| >= Steps(pc)
    requires forall i :: 0 <= i < |env| ==> env[i] == Delivery(true, Replied)
    ensures
      var r := Sides(hash, ms[p.from], ms[p.to], t, p, pc);
      Call(hash, ms, t, p, pc, env) == ms[p.from := r.0][p.to := r.1]
    decreases Steps(pc)
  {
    hide ApplyCommand, Proposal, Call;
    if pc == Stopped {
      CallStopped(hash, ms, t, p, env);
      assert ms == ms[p.from := ms[p.from]][p.to := ms[p.to]];
    } else {
      CallStep(hash, ms, t, p, pc, env);
      var x, c := Target(p, pc), Proposal(t, p, pc);
      var ms' := Proposed(hash, ms, x, c, true);
      CallSides(hash, ms', t, p, NextPc(pc, Replied, VoteOf(hash, ms, t, p, pc)), env[1..]);
      var r := Sides(hash, ms[p.from], ms[p.to], t, p, pc);
      assert ms'[p.from := r.0][p.to := r.1] == ms[p.from := r.0][p.to := r.1];
    }
  }

  /**
   A transfer that can be paid moves exactly its amount from one account to the other and leaves no hold behind;
   if the credit account is full the amount leaves and does not arrive.
   */
  lemma TransferMoves(hash: Str -> nat, ms: Machines, t: TxId, p: Plan, env: seq<Delivery>)
    requires Fit(ms, t, p, AskDebit) && Answered(env)
    requires Funded(ms[p.from].ledger, p.cmd) && Payable(ms[p.to].ledger, p.cmd)
    ensures
      var now := CallOf(hash, ms, t, p, env);
      var d, c, a := ms[p.from].ledger, ms[p.to].ledger, p.cmd.amount;
      && now.Keys == ms.Keys && (forall x :: x in ms && x != p.from && x != p.to ==> now[x] == ms[x])
      && now[p.from].ledger.balances == d.balances[p.cmd.from := d.balances[p.cmd.from] - a]
      && now[p.to].ledger.balances == Credited(c, p.cmd)
      && now[p.from].ledger.reserves == d.reserves && now[p.to].ledger.reserves == c.reserves
  {
    hide MachineOk, ApplyCommand, Call, Proposal, Funded, Payable, Credited, PairOk;
    FreshBoth(ms, t, p);
    VotesExactly(hash, ms[p.from], t, p);
    VotesExactly(hash, ms[p.to], t, p);
    DebitLeg(hash, ms[p.from], t, p);
    CreditLeg(hash, ms[p.to], t, p);
    CallSides(hash, ms, t, p, AskDebit, env);
    var r := Sides(hash, ms[p.from], ms[p.to], t, p, AskDebit);
    assert r == (Asked(hash, Asked(hash, Asked(hash, ms[p.from], t, p, AskDebit), t, p, LogDecision(true)), t, p, TellDebit(true)),
                 Asked(hash, Asked(hash, ms[p.to], t, p, AskCredit), t, p, TellCredit(true)));
  }

  /** One that cannot leaves both ledgers exactly as they were. */
  lemma TransferRefused(hash: Str -> nat, ms: Machines, t: TxId, p: Plan, env: seq<Delivery>)
    requires Fit(ms, t, p, AskDebit) && Answered(env)
    requires !(Funded(ms[p.from].ledger, p.cmd) && Payable(ms[p.to].ledger, p.cmd))
    ensures
      var now := CallOf(hash, ms, t, p, env);
      && now.Keys == ms.Keys && (forall x :: x in ms && x != p.from && x != p.to ==> now[x] == ms[x])
      && now[p.from].ledger == ms[p.from].ledger && now[p.to].ledger == ms[p.to].ledger
  {
    hide MachineOk, ApplyCommand, Call, Proposal, Funded, Payable, PairOk;
    FreshBoth(ms, t, p);
    VotesExactly(hash, ms[p.from], t, p);
    VotesExactly(hash, ms[p.to], t, p);
    DebitAborted(hash, ms[p.from], t, p);
    CreditAborted(hash, ms[p.to], t, p);
    CallSides(hash, ms, t, p, AskDebit, env);
    var r := Sides(hash, ms[p.from], ms[p.to], t, p, AskDebit);
    var d := Asked(hash, Asked(hash, Asked(hash, ms[p.from], t, p, AskDebit), t, p, LogDecision(false)), t, p, TellDebit(false));
    if Funded(ms[p.from].ledger, p.cmd) {
      assert r == (d, Asked(hash, Asked(hash, ms[p.to], t, p, AskCredit), t, p, TellCredit(false)));
    } else {
      assert r == (d, Asked(hash, ms[p.to], t, p, TellCredit(false)));
    }
  }

  lemma FreshBoth(ms: Machines, t: TxId, p: Plan)
    requires Fit(ms, t, p, AskDebit)
    ensures t !in ms[p.from].txs && t !in ms[p.to].txs
  {
    hide MachineOk;
  }

  /**
   A transfer whose debit was promised and whose credit vote was no, or was not heard, holds nothing once the abort is
   logged and told to the debit side, whatever became of the other proposals.
   */
  lemma AbortReleases(hash: Str -> nat, ms: Machines, t: TxId, p: Plan, env: seq<Delivery>)
    requires Fit(ms, t, p, AskDebit) && |env| == 5 && AllPossible(env) && Funded(ms[p.from].ledger, p.cmd)
    requires env[0].sight == Replied && env[2].sight == Replied && env[3].applied
    requires env[1].sight == Replied ==> !Payable(ms[p.to].ledger, p.cmd)
    ensures
      var now := CallOf(hash, ms, t, p, env);
      && now.Keys == ms.Keys && now[p.from].ledger == ms[p.from].ledger && now[p.to].ledger == ms[p.to].ledger
  {
    hide MachineOk, ApplyCommand, Call, Proposal, Funded, Payable, PairOk;
    FreshBoth(ms, t, p);
    VotesExactly(hash, ms[p.from], t, p);
    VotesExactly(hash, ms[p.to], t, p);
    DebitAborted(hash, ms[p.from], t, p);
    CreditAborted(hash, ms[p.to], t, p);
    CreditPromises(hash, ms[p.to], t, p);
    var ms1 := Stepped(hash, ms, t, p, AskDebit, env);
    var ms2 := Stepped(hash, ms1, t, p, AskCredit, env[1..]);
    var ms3 := Stepped(hash, ms2, t, p, LogDecision(false), env[2..]);
    var ms4 := Stepped(hash, ms3, t, p, TellDebit(false), env[3..]);
    var ms5 := Stepped(hash, ms4, t, p, TellCredit(false), env[4..]);
    CallStopped(hash, ms5, t, p, env[5..]);
  }

  /** One step of a call whose environment is known. */
  lemma Stepped(hash: Str -> nat, ms: Machines, t: TxId, p: Plan, pc: Pc, env: seq<Delivery>) returns (more: Machines)
    requires p.from in ms && p.to in ms && p.from != p.to && pc != Stopped && env != [] && Possible(env[0])
    ensures more.Keys == ms.Keys && (forall x :: x in ms && x != Target(p, pc) ==> more[x] == ms[x])
    ensures more[Target(p, pc)] == if env[0].applied then Asked(hash, ms[Target(p, pc)], t, p, pc) else ms[Target(p, pc)]
    ensures Call(hash, ms, t, p, pc, env) == Call(hash, more, t, p, NextPc(pc, env[0].sight, VoteOf(hash, ms, t, p, pc)), env[1..])
  {
    hide ApplyCommand, Call, Proposal;
    CallStep(hash, ms, t, p, pc, env);
    more := Proposed(hash, ms, Target(p, pc), Proposal(t, p, pc), env[0].applied);
  }

  lemma CreditPromises(hash: Str -> nat, m: Machine, t: TxId, p: Plan)
    requires MachineOk(m) && t !in m.txs
    ensures Asked(hash, m, t, p, AskCredit).ledger == m.ledger
  {
    hide MachineOk, PrepareDebit;
  }
}
