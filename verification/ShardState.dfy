/**
 The shard machine as the source runs it: a ledger object and three maps updated per applied entry.
 */
module ShardState {
  import opened Bytes
  import opened Ledger
  import opened LedgerState
  import opened ShardMachine
  import Spec = ShardMachine
  import opened Parsing
  import opened LedgerSnapshot
  import opened ShardSnapshot
  import opened SnapshotIO
  import CommandCodec

  const ERR_UNDECODABLE: Str := Ascii("shard: undecodable command")

  class Machine {
    const id: ShardId
    const state: State
    var txs: map<TxId, TxRecord>
    var results: map<Str, Result>
    var byIndex: map<nat, Result>

    ghost function Value(): Spec.Machine
      reads this, state
    {
      Spec.Machine(state.Value(), txs, results, byIndex)
    }

    constructor (id: ShardId, state: State)
      ensures this.id == id && this.state == state
      ensures Value() == Spec.Machine(state.Value(), map[], map[], map[])
    {
      this.id := id;
      this.state := state;
      txs, results, byIndex := map[], map[], map[];
    }

    method ApplySingle(c: ShardCommand) returns (r: Result)
      modifies this`results, state
      ensures (Value(), r) == Spec.ApplySingle(state.hash, old(Value()), c)
    {
      r := state.Apply(c.ledger);
      if c.ledger.key != [] {
        results := results[c.ledger.key := r];
      }
    }

    method ApplyPrepare(c: ShardCommand) returns (r: Result)
      modifies this`txs, state
      ensures (Value(), r) == Spec.ApplyPrepare(old(Value()), c)
    {
      hide PrepareDebit, PrepareCredit;
      if c.txId in txs {
        var prev := txs[c.txId];
        if prev.decided || prev.phase == Committed || prev.phase == Aborted {
          return Refused(ERR_SINGLE_USE);
        }
        if prev.phase == Prepared {
          return Okay(0);
        }
      }
      if c.debit {
        r := state.PrepareDebit(c.txId, c.ledger.from, c.ledger.amount);
      } else {
        r := state.PrepareCredit(c.ledger.to, c.ledger.amount);
      }
      if r.ok {
        txs := txs[c.txId := TxRecord(c.txId, Prepared, c.ledger, c.debit, c.participants, c.coordinator, false, false)];
      } else {
        txs := txs[c.txId := TxRecord(c.txId, Aborted, c.ledger, c.debit, [], [], true, false)];
      }
    }

    method ApplyDecision(c: ShardCommand) returns (r: Result)
      modifies this`txs
      ensures (Value(), r) == Spec.ApplyDecision(old(Value()), c)
    {
      if c.txId !in txs {
        txs := txs[c.txId := TxRecord(c.txId, Unknown, c.ledger, c.debit, [], [], false, false)];
      }
      var rec := txs[c.txId];
      rec := rec.(decided := true, commit := c.commit);
      if |c.participants| > 0 {
        rec := rec.(participants := c.participants);
      }
      if c.coordinator != [] {
        rec := rec.(coordinator := c.coordinator);
      }
      txs := txs[c.txId := rec];
      assert txs == old(txs)[c.txId := rec];
      r := Okay(0);
    }

    method ApplyOutcome(c: ShardCommand) returns (r: Result)
      modifies this`txs, state
      ensures (Value(), r) == Spec.ApplyOutcome(old(Value()), c)
    {
      hide CommitDebit, CommitCredit, AbortTx;
      if c.txId !in txs {
        return Refused(ERR_UNKNOWN_TX);
      }
      var rec := txs[c.txId];
      if rec.phase == Committed || rec.phase == Aborted {
        return Okay(0);
      }
      if c.commit {
        if rec.debit {
          r := state.CommitDebit(c.txId, OutcomeTimestamp(c, rec));
        } else {
          r := state.CommitCredit(c.txId, rec.cmd.to, rec.cmd.amount, OutcomeTimestamp(c, rec));
        }
        rec := rec.(phase := Committed);
      } else {
        r := state.AbortTx(c.txId);
        rec := rec.(phase := Aborted);
      }
      txs := txs[c.txId := rec.(decided := true, commit := c.commit)];
    }

    method Apply(c: ShardCommand) returns (r: Result)
      modifies this`txs, this`results, state
      ensures (Value(), r) == Spec.ApplyCommand(state.hash, old(Value()), c)
    {
      hide Spec.ApplySingle, Spec.ApplyPrepare, Spec.ApplyDecision, Spec.ApplyOutcome;
      if c.op == OP_SINGLE {
        r := ApplySingle(c);
      } else if c.op == OP_PREPARE {
        r := ApplyPrepare(c);
      } else if c.op == OP_DECISION {
        r := ApplyDecision(c);
      } else if c.op == OP_OUTCOME {
        r := ApplyOutcome(c);
      } else {
        r := Refused(ERR_UNKNOWN_OP);
      }
    }

    method ApplyAt(index: nat, c: ShardCommand) returns (r: Result)
      modifies this, state
      ensures (Value(), r) == Spec.ApplyAt(state.hash, old(Value()), index, c)
    {
      hide Spec.ApplyCommand;
      r := Apply(c);
      byIndex := byIndex[index := r];
    }

    /** The entry as the log holds it; one that does not decode is answered, recorded and otherwise ignored. */
    method ApplyEntry(index: nat, data: Str) returns (r: Result)
      modifies this, state
      ensures (Value(), r) ==
        match CommandCodec.DecodeShard(data)
        case None => (old(Value()).(byIndex := old(byIndex)[index := Refused(ERR_UNDECODABLE)]), Refused(ERR_UNDECODABLE))
        case Some(c) => Spec.ApplyAt(state.hash, old(Value()), index, c)
    {
      hide Spec.ApplyCommand, CommandCodec.DecodeShard;
      var c := CommandCodec.Decode(data);
      if c == None {
        r := Refused(ERR_UNDECODABLE);
        byIndex := byIndex[index := r];
      } else {
        r := ApplyAt(index, c.value);
      }
    }

    /** The transactions prepared here and not yet settled, in whatever order the map yields them. */
    method InDoubt() returns (ids: seq<TxId>)
      ensures forall t :: t in ids <==> t in txs && txs[t].phase == Prepared
      ensures forall i, j :: 0 <= i < j < |ids| ==> ids[i] != ids[j]
    {
      ids := [];
      var todo := txs.Keys;
      while todo != {}
        invariant todo <= txs.Keys
        invariant forall t :: t in ids <==> t in txs.Keys - todo && txs[t].phase == Prepared
        invariant forall i, j :: 0 <= i < j < |ids| ==> ids[i] != ids[j]
      {
        var t :| t in todo;
        if txs[t].phase == Prepared {
          ids := ids + [t];
        }
        todo := todo - {t};
      }
    }

    method Snapshot() returns (b: Str)
      ensures b == PutShard(Value())
    {
      hide PutMap, PutU64, PutLedger;
      var ledgerData := state.Snapshot();
      var txBytes := WriteMap(txs, PutRecord);
      var resultBytes := WriteMap(results, PutResult);
      b := PutU64(|ledgerData|) + ledgerData + txBytes + resultBytes;
      assert b == PutShard(Value());
    }

    /** A truncated or malformed snapshot is refused with nothing changed. */
    method RestoreSnapshot(data: Str) returns (ok: bool)
      modifies this, state
      ensures ok == GetShard(data).Some?
      ensures Value() == if ok then GetShard(data).value.0 else old(Value())
    {
      hide GetSections, GetLedger;
      var r := new Reader(data);
      var ledgerData, newTxs, newResults := ReadSections(r);
      if r.err {
        return false;
      }
      ok := state.RestoreSnapshot(ledgerData);
      if !ok {
        return;
      }
      txs, results, byIndex := newTxs, newResults, map[];
    }
  }

  method ReadSections(r: Reader) returns (ledgerData: Str, txs: map<TxId, TxRecord>, results: map<Str, Result>)
    requires r.Valid()
    modifies r`pos, r`err
    ensures r.Valid() && Parsed(old(r.Left()), GetSections, (ledgerData, txs, results), r.Left())
  {
    hide GetU64, GetRecords, GetResults;
    var n := r.U64();
    ledgerData := r.Blob(n);
    txs := ReadRecords(r);
    results := ReadResults(r);
  }

  method ReadCommand(r: Reader) returns (c: Command)
    requires r.Valid()
    modifies r`pos, r`err
    ensures r.Valid() && Parsed(old(r.Left()), GetCommand, c, r.Left())
  {
    hide GetU64, GetStr, GetI64;
    var op := r.U64();
    var key := r.String();
    var from := r.String();
    var to := r.String();
    var amount := r.I64();
    c := Command(op % 256, key, from, to, amount, UNSTAMPED);
  }

  method ReadParticipants(r: Reader) returns (ps: seq<ShardId>)
    requires r.Valid()
    modifies r`pos, r`err
    ensures r.Valid() && Parsed(old(r.Left()), GetParticipants, ps, r.Left())
  {
    hide GetU64, GetStr;
    ps := [];
    var n: nat := r.U64();
    ghost var count, start := n, r.Left();
    while n > 0
      invariant r.Valid()
      invariant Remaining(start, count, GetStr, [], AddLast) == Remaining(r.Left(), n, GetStr, ps, AddLast)
    {
      var p := r.String();
      ps := ps + [p];
      n := n - 1;
    }
  }

  method ReadRecord(r: Reader) returns (rec: TxRecord)
    requires r.Valid()
    modifies r`pos, r`err
    ensures r.Valid() && Parsed(old(r.Left()), GetRecord, (rec.id, rec), r.Left())
  {
    hide GetU64, GetStr, GetBool, GetParticipants, GetCommand;
    var id := r.String();
    var phase := r.U64();
    var debit := r.Bool();
    var decided := r.Bool();
    var commit := r.Bool();
    var coordinator := r.String();
    var participants := ReadParticipants(r);
    var cmd := ReadCommand(r);
    rec := TxRecord(id, PhaseOf(phase), cmd, debit, participants, coordinator, decided, commit);
  }

  method ReadRecords(r: Reader) returns (txs: map<TxId, TxRecord>)
    requires r.Valid()
    modifies r`pos, r`err
    ensures r.Valid() && Parsed(old(r.Left()), GetRecords, txs, r.Left())
  {
    hide GetU64, GetRecord;
    txs := map[];
    var n: nat := r.U64();
    ghost var count, start := n, r.Left();
    while n > 0
      invariant r.Valid()
      invariant Remaining(start, count, GetRecord, map[], AddPair) == Remaining(r.Left(), n, GetRecord, txs, AddPair)
    {
      var rec := ReadRecord(r);
      if !r.err {
        txs := txs[rec.id := rec];
      }
      n := n - 1;
    }
  }
}
