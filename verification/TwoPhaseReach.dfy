/**
 The commit point is within reach of every transfer: what the other theorems say of a transfer whose votes are in
 is said of states that runs get to.
 */
module TwoPhaseReach {
  import opened Bytes
  import opened Ledger
  import opened ShardMachine
  import opened TwoPhase
  import opened TwoPhaseRuns
  import opened Transfers

  function Opening(a: AccountId, amount: Money): Command { Command(OP_OPEN, [1], [], a, amount, UNSTAMPED) }

  lemma Opened(hash: Str -> nat, a: AccountId, amount: Money)
    requires 0 <= amount
    ensures
      var m := ApplyCommand(hash, NEW, SingleCommand(Opening(a, amount))).0;
      MachineOk(m) && m.txs == map[] && m.ledger.balances == map[a := amount] && Available(m.ledger, a) == amount
  {
    hide MachineOk;
    NewOk();
    MachineStepOk(hash, NEW, SingleCommand(Opening(a, amount)));
  }

  lemma BothVoteYes(hash: Str -> nat, t: TxId, p: Plan)
    requires 0 < p.cmd.amount
    ensures
      var d := ApplyCommand(hash, NEW, SingleCommand(Opening(p.cmd.from, p.cmd.amount))).0;
      var c := ApplyCommand(hash, NEW, SingleCommand(Opening(p.cmd.to, 0))).0;
      ApplyCommand(hash, d, Proposal(t, p, AskDebit)).1.ok && ApplyCommand(hash, c, Proposal(t, p, AskCredit)).1.ok
  {
    hide MachineOk, ApplyCommand, Available;
    var d := ApplyCommand(hash, NEW, SingleCommand(Opening(p.cmd.from, p.cmd.amount))).0;
    var c := ApplyCommand(hash, NEW, SingleCommand(Opening(p.cmd.to, 0))).0;
    Opened(hash, p.cmd.from, p.cmd.amount);
    Opened(hash, p.cmd.to, 0);
    VotesExactly(hash, d, t, p);
    VotesExactly(hash, c, t, p);
  }

  /** For every plan between two shards there is a run that collects both votes. */
  lemma VotesComeIn(hash: Str -> nat, t: TxId, p: Plan) returns (run: seq<System>, events: seq<Event>)
    requires p.from != p.to && 0 < p.cmd.amount
    ensures FreshRun(hash, run, events)
    ensures t in run[|events|].jobs && run[|events|].jobs[t] == Job(p, LogDecision(true))
  {
    hide ApplyCommand;
    BothVoteYes(hash, t, p);
    var answered := Drive(t, Delivery(true, Replied));
    var s0 := System(map[p.from := NEW, p.to := NEW], map[], {});
    var s1 := Next(hash, s0, Single(p.from, Opening(p.cmd.from, p.cmd.amount)));
    var s2 := Next(hash, s1, Single(p.to, Opening(p.cmd.to, 0)));
    var s3 := Next(hash, s2, Begin(t, p));
    var s4 := Next(hash, s3, answered);
    var s5 := Next(hash, s4, answered);
    run := [s0, s1, s2, s3, s4, s5];
    events := [Single(p.from, Opening(p.cmd.from, p.cmd.amount)), Single(p.to, Opening(p.cmd.to, 0)), Begin(t, p), answered, answered];
  }
}
