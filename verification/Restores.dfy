/**
 What a restored shard machine has lost: the snapshot format does not carry the timestamps of recorded commands.
 Two machines that agree on everything else book a commit differently exactly if the outcome carries no timestamp
 of its own and their records disagree on it.
 */
module Restores {
  import opened Bytes
  import opened Parsing
  import opened Ledger
  import L = Ledger
  import opened LedgerInvariant
  import opened LedgerSnapshot
  import opened ShardMachine
  import opened ShardSnapshot
  import opened TwoPhaseRuns

  // ----- a restore keeps the machine sound -----

  lemma RebornOk(m: Machine)
    requires MachineOk(m)
    ensures MachineOk(Reborn(m))
  {
    hide LedgerOk, Unique, CreditKey, DebitKey;
    forall t
      ensures TxOk(Reborn(m), t)
    {
      assert TxOk(m, t);
      assert Posted(Reborn(m), DebitKey(t)) == Posted(m, DebitKey(t));
    }
  }

  lemma RebornAlike(m: Machine, k: Machine)
    requires Alike(m, k)
    ensures Alike(Reborn(m), k) && Alike(m, Reborn(k))
  {
    hide LedgerAlike;
  }

  lemma AlikeSelf(m: Machine)
    ensures Alike(m, m)
  {
  }

  // ----- stamps of records -----

  /** No command changes the command a record was made for. */
  lemma StampStays(hash: Str -> nat, m: Machine, c: ShardCommand, t: TxId)
    requires MachineOk(m) && t in m.txs
    ensures t in ApplyCommand(hash, m, c).0.txs && ApplyCommand(hash, m, c).0.txs[t].cmd == m.txs[t].cmd
  {
    hide MachineOk, L.Apply, Vote, Settle;
    PrepareFresh(m, c.txId);
  }

  /** A record that a command makes carries that command's timestamp. */
  lemma StampMade(hash: Str -> nat, m: Machine, c: ShardCommand, t: TxId)
    requires t !in m.txs && t in ApplyCommand(hash, m, c).0.txs
    ensures t == c.txId && ApplyCommand(hash, m, c).0.txs[t].cmd == c.ledger
  {
    hide L.Apply, Vote, Settle;
  }

  // ----- what is booked under a record's stamp -----

  /** The outcome posts a leg of its transaction. */
  ghost predicate Posts(m: Machine, c: ShardCommand) {
    && c.txId in m.txs && !Terminal(m.txs[c.txId].phase)
    && if m.txs[c.txId].debit then c.txId in m.ledger.reserves
       else
         && CreditKey(c.txId) !in m.ledger.applied && m.txs[c.txId].cmd.to in m.ledger.balances
         && !Overflows(m.ledger, m.txs[c.txId].cmd.to, m.txs[c.txId].cmd.amount)
  }

  /** An outcome without a timestamp of its own commits, and books its leg under the record's. */
  ghost predicate Books(m: Machine, c: ShardCommand) {
    c.op == OP_OUTCOME && c.commit && c.ledger.ts == UNSTAMPED && Posts(m, c)
  }

  lemma BooksAlike(m: Machine, k: Machine, c: ShardCommand)
    requires Alike(m, k)
    ensures Books(m, c) == Books(k, c)
  {
    hide HistoryAlike, CreditKey;
    if c.txId in m.txs {
      assert Unstamped(m.txs[c.txId]) == Unstamped(k.txs[c.txId]);
    }
  }

  lemma SameLedger(m: Machine, k: Machine)
    requires Alike(m, k) && m.ledger.history == k.ledger.history
    ensures m.ledger == k.ledger
  {
  }

  /** One leg on equal ledgers, under two timestamps. */
  lemma LegsDiffer(l: Ledger, t: TxId, a: AccountId, amount: Money, ts: Timestamp, us: Timestamp)
    ensures t in l.reserves ==> (CommitDebit(l, t, ts).0.history == CommitDebit(l, t, us).0.history <==> ts == us)
    ensures t !in l.reserves ==> CommitDebit(l, t, ts).0 == l
    ensures CreditKey(t) !in l.applied && a in l.balances && !Overflows(l, a, amount) ==>
      (CommitCredit(l, t, a, amount, ts).0.history == CommitCredit(l, t, a, amount, us).0.history <==> ts == us)
    ensures !(CreditKey(t) !in l.applied && a in l.balances && !Overflows(l, a, amount)) ==>
      CommitCredit(l, t, a, amount, ts).0 == l
  {
    hide CreditKey, DebitKey, Overflows, Wrap;
    if t in l.reserves {
      LastDiffers(CommitDebit(l, t, ts).0.history, CommitDebit(l, t, us).0.history);
    }
    if CreditKey(t) !in l.applied && a in l.balances && !Overflows(l, a, amount) {
      LastDiffers(CommitCredit(l, t, a, amount, ts).0.history, CommitCredit(l, t, a, amount, us).0.history);
    }
  }

  lemma LastDiffers(h: seq<Transaction>, k: seq<Transaction>)
    requires |h| == |k| > 0 && h[..|h| - 1] == k[..|k| - 1]
      && h[|h| - 1].(ts := UNSTAMPED) == k[|k| - 1].(ts := UNSTAMPED)
    ensures h == k <==> h[|h| - 1].ts == k[|k| - 1].ts
  {
    assert h == h[..|h| - 1] + [h[|h| - 1]] && k == k[..|k| - 1] + [k[|k| - 1]];
  }

  lemma OutcomeExactly(m: Machine, k: Machine, c: ShardCommand)
    requires Alike(m, k) && m.ledger.history == k.ledger.history && c.op == OP_OUTCOME
    ensures ApplyOutcome(m, c).0.ledger.history == ApplyOutcome(k, c).0.ledger.history <==>
      !(Books(m, c) && m.txs[c.txId].cmd.ts != k.txs[c.txId].cmd.ts)
  {
    hide CommitDebit, CommitCredit, AbortTx, CreditKey, Overflows, LedgerAlike;
    SameLedger(m, k);
    if c.txId in m.txs {
      var a, b := m.txs[c.txId], k.txs[c.txId];
      assert Unstamped(a) == Unstamped(b);
      LegsDiffer(m.ledger, c.txId, a.cmd.to, a.cmd.amount, OutcomeTimestamp(c, a), OutcomeTimestamp(c, b));
      LegsDiffer(m.ledger, c.txId, a.cmd.to, a.cmd.amount, OutcomeTimestamp(c, b), OutcomeTimestamp(c, a));
    }
  }

  /**
   Exactly when one command makes two histories differ: an unstamped commit posts a leg for a record whose
   timestamp only one of the machines still has.
   */
  lemma BooksExactly(hash: Str -> nat, m: Machine, k: Machine, c: ShardCommand)
    requires Alike(m, k) && m.ledger.history == k.ledger.history
    ensures ApplyCommand(hash, m, c).0.ledger.history == ApplyCommand(hash, k, c).0.ledger.history <==>
      !(Books(m, c) && m.txs[c.txId].cmd.ts != k.txs[c.txId].cmd.ts)
  {
    hide Alike, L.Apply, ApplyOutcome, Posts;
    SameLedger(m, k);
    if c.op == OP_OUTCOME {
      OutcomeExactly(m, k, c);
    } else if c.op == OP_PREPARE {
      PrepareBooksNothing(m, c);
      PrepareBooksNothing(k, c);
    }
  }

  lemma PrepareBooksNothing(m: Machine, c: ShardCommand)
    ensures ApplyPrepare(m, c).0.ledger.history == m.ledger.history
  {
    hide Available;
  }

  /** The history only grows. */
  lemma HistoryGrows(hash: Str -> nat, m: Machine, c: ShardCommand)
    ensures m.ledger.history <= ApplyCommand(hash, m, c).0.ledger.history
  {
    hide L.Apply, ApplyOutcome;
    SingleEffect(hash, m.ledger, c.ledger);
    PrepareBooksNothing(m, c);
    OutcomeGrows(m, c);
  }

  lemma OutcomeGrows(m: Machine, c: ShardCommand)
    ensures m.ledger.history <= ApplyOutcome(m, c).0.ledger.history
  {
    hide CreditKey, DebitKey, Overflows, Wrap, Available;
  }

  // ----- the bytes -----

  /** Two machines that agree up to timestamps have the same snapshot if and only if they have the same history. */
  lemma BytesExactly(m: Machine, k: Machine)
    requires Alike(m, k) && ShardFits(m) && ShardFits(k)
    ensures PutShard(m) == PutShard(k) <==> m.ledger.history == k.ledger.history
  {
    hide PutLedger, PutMap, PutRecord, PutResult, PutStr, ShardFits, LedgerAlike, GetShard;
    ErasedSame(m.txs);
    ErasedSame(k.txs);
    SameErased(m.txs, k.txs);
    if m.ledger.history == k.ledger.history {
      SameLedger(m, k);
    } else if PutShard(m) == PutShard(k) {
      ShardReads(m, []);
      ShardReads(k, []);
    }
  }

  lemma SameErased(a: map<TxId, TxRecord>, b: map<TxId, TxRecord>)
    requires TxsAlike(a, b)
    ensures Erased(a) == Erased(b)
  {
  }

  // ----- recovery after a restore -----

  /**
   A leader restored from a snapshot recovers a transaction with its record's timestamp gone.  A replica that
   replayed the log books the debit under the prepare's timestamp, a restored one under none.
   */
  lemma RestoredRecoveryDiverges(hash: Str -> nat, m: Machine, t: TxId)
    requires MachineOk(m) && t in m.txs && m.txs[t].phase == Prepared && m.txs[t].debit
    requires m.txs[t].cmd.ts != UNSTAMPED && Decision(m, t) == Some(true)
    ensures
      var c := RecoveryOutcome(Reborn(m).txs[t], Reborn(m));
      ApplyCommand(hash, m, c).0.ledger.history != ApplyCommand(hash, Reborn(m), c).0.ledger.history
  {
    hide LedgerOk, Unique, ApplyCommand, LegsMatch;
    assert TxOk(m, t);
    AlikeSelf(m);
    RebornAlike(m, m);
    BooksExactly(hash, m, Reborn(m), RecoveryOutcome(Reborn(m).txs[t], Reborn(m)));
  }
}
