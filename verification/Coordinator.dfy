/**
 The coordinator object of shard/coordinator.go over live shard machines: transfers run by successive
 proposals, and one recovery pass over every group in whatever order the maps yield.

 Each Propose meets a Delivery chosen by the environment: whether the command was applied, and what the
 proposer saw.
 */
module Coordinator {
  import opened Bytes
  import opened Ledger
  import opened ShardMachine
  import S = ShardMachine
  import opened ShardState
  import opened TwoPhase
  import opened TwoPhaseRuns
  import opened TwoPhaseRecovery

  const ERR_NOT_LED: Str := Ascii("credit shard is not led by this node")
  const ERR_NO_VOTE: Str := Ascii("credit shard did not answer")
  const ERR_NO_REASON: Str := Ascii("credit shard voted no without a reason")

  datatype Verdict = Done | NotLed | NoGroup | ProposeFailed | TxAborted | InDoubt

  class Coordinator {
    const groups: map<ShardId, ShardState.Machine>
    const hash: Str -> nat
    /** The machines' values, tied to the objects by Valid. */
    ghost var machines: map<ShardId, S.Machine>

    ghost function Objects(): set<object> {
      (set x | x in groups :: groups[x]) + (set x | x in groups :: groups[x].state)
    }

    /** Different groups share no object. */
    ghost predicate Separate() {
      forall x, y :: x in groups && y in groups && x != y ==> groups[x] != groups[y] && groups[x].state != groups[y].state
    }

    ghost predicate Shows(x: ShardId)
      requires x in groups
      reads this, groups[x], groups[x].state
    {
      x in machines && groups[x].Value() == machines[x] && groups[x].state.hash == hash
    }

    ghost predicate Valid()
      reads this, Objects()
    {
      machines.Keys == groups.Keys && Separate() && forall x :: x in groups ==> Shows(x)
    }

    lemma Shown(x: ShardId)
      requires Valid() && x in groups
      ensures x in machines && groups[x].state.Value() == machines[x].ledger
    {
      assert Shows(x);
    }

    lemma Keys()
      requires Valid()
      ensures machines.Keys == groups.Keys
    {
    }

    constructor (groups: map<ShardId, ShardState.Machine>, hash: Str -> nat, ghost machines: map<ShardId, S.Machine>)
      requires machines.Keys == groups.Keys
      requires forall x :: x in groups ==> groups[x].Value() == machines[x] && groups[x].state.hash == hash
      requires forall x, y :: x in groups && y in groups && x != y ==> groups[x] != groups[y] && groups[x].state != groups[y].state
      ensures Valid() && this.groups == groups && this.hash == hash && this.machines == machines
    {
      this.groups, this.hash, this.machines := groups, hash, machines;
    }

    /** One group applies the command, or does not; the others are untouched. */
    method Propose(x: ShardId, c: ShardCommand, d: Delivery) returns (r: Result)
      requires Valid() && x in groups
      modifies this`machines, Objects()
      ensures Valid()
      ensures machines == Proposed(hash, old(machines), x, c, d.applied)
      ensures d.applied ==> r == ApplyCommand(hash, old(machines)[x], c).1
    {
      hide ApplyCommand, ShardState.Machine.Value;
      r := Refused([]);
      if d.applied {
        assert groups[x] in Objects() && groups[x].state in Objects() && Shows(x);
        r := groups[x].Apply(c);
        machines := machines[x := ApplyCommand(hash, machines[x], c).0];
        forall y | y in groups && y != x
          ensures Shows(y)
        {
          assert old(Shows(y));
        }
      }
    }

    // ----- one transfer -----

    /** The proposal of pc; the rest of the call then continues from next. */
    method Advance(t: TxId, p: Plan, pc: Pc, d: Delivery, ghost rest: seq<Delivery>) returns (r: Result, ghost next: Pc)
      requires Valid() && machines.Keys == groups.Keys && p.from in groups && p.to in groups && pc != Stopped
        && Possible(d)
      modifies this`machines, Objects()
      ensures Valid() && machines.Keys == groups.Keys
      ensures Call(hash, old(machines), t, p, pc, [d] + rest) == Call(hash, machines, t, p, next, rest)
      ensures machines == Proposed(hash, old(machines), Target(p, pc), Proposal(t, p, pc), d.applied)
      ensures next == NextPc(pc, d.sight, VoteOf(hash, old(machines), t, p, pc))
      ensures d.applied ==> r.ok == VoteOf(hash, old(machines), t, p, pc)
    {
      hide ApplyCommand, Proposal, Valid, Call;
      var x, c := Target(p, pc), Proposal(t, p, pc);
      ghost var ok := VoteOf(hash, machines, t, p, pc);
      CallStep(hash, machines, t, p, pc, [d] + rest);
      assert ([d] + rest)[1..] == rest;
      r := Propose(x, c, d);
      next := NextPc(pc, d.sight, ok);
    }

    /** Log the decision in the debit group, then deliver the outcome to both. */
    method Decide(t: TxId, p: Plan, commit: bool, env: seq<Delivery>) returns (ok: bool)
      requires Valid() && machines.Keys == groups.Keys && p.from in groups && p.to in groups
      requires |env| == 3 && AllPossible(env)
      modifies this`machines, Objects()
      ensures Valid() && machines.Keys == groups.Keys
      ensures machines == Call(hash, old(machines), t, p, LogDecision(commit), env)
      ensures ok == (env[0].sight == Replied && env[1].sight != Failed && env[2].sight != Failed)
    {
      hide ApplyCommand, Proposal, Valid, Call, Possible, VoteOf, Proposed;
      assert env == [env[0]] + env[1..] && env[1..] == [env[1]] + [env[2]] && [env[2]] == [env[2]] + [];
      var _, n1 := Advance(t, p, LogDecision(commit), env[0], env[1..]);
      if env[0].sight != Replied {
        CallStopped(hash, machines, t, p, env[1..]);
        return false;
      }
      var _, n2 := Advance(t, p, TellDebit(commit), env[1], [env[2]]);
      var _, n3 := Advance(t, p, TellCredit(commit), env[2], []);
      CallStopped(hash, machines, t, p, []);
      ok := env[1].sight != Failed && env[2].sight != Failed;
    }

    /** The two-phase commit of one transfer. */
    method TwoPhase(t: TxId, cmd: Command, from: ShardId, to: ShardId, env: seq<Delivery>)
      returns (r: Result, v: Verdict)
      requires Valid() && |env| == 5 && AllPossible(env)
      modifies this`machines, Objects()
      ensures Valid()
      ensures v == NoGroup <==> from !in groups || to !in groups
      ensures v == NoGroup ==> machines == old(machines)
      ensures v != NoGroup ==> machines == CallOf(hash, old(machines), t, Plan(cmd, from, to), env)
      ensures v == Done || v == InDoubt <==> v != NoGroup && BothVoted(hash, old(machines), t, Plan(cmd, from, to), env)
      ensures v == Done <==> (v == Done || v == InDoubt) && Told(env)
      ensures v == ProposeFailed <==> v != NoGroup && env[0].sight == Failed
      ensures v == Done ==> r.balance == Available(machines[from].ledger, cmd.from)
      ensures r.ok <==> v == Done
    {
      hide ApplyCommand, Proposal, Valid, Call, Possible, VoteOf, Proposed, AllPossible, Available;
      PossibleSlice(env, 0, 5);
      PossibleSlice(env, 1, 4);
      Keys();
      if from !in groups || to !in groups {
        return Refused([]), NoGroup;
      }
      var p := Plan(cmd, from, to);
      assert env == [env[0]] + env[1..] && env[1..] == [env[1]] + env[2..];
      ghost var n1;
      r, n1 := Advance(t, p, AskDebit, env[0], env[1..]);
      if env[0].sight != Replied {
        CallStopped(hash, machines, t, p, env[1..]);
        return Refused([]), if env[0].sight == NotLeader then NotLed else ProposeFailed;
      }
      if !r.ok {
        CallLong(hash, machines, t, p, LogDecision(false), env[1..], 3);
        assert env[1..][..3] == env[1..4];
        var _ := Decide(t, p, false, env[1..4]);
        return r, TxAborted;
      }
      r, v := Phase2(t, p, env);
      if v == Done {
        Shown(from);
        var available, _ := groups[from].state.AvailableFor(cmd.from);
        r := Okay(available);
      }
    }

    /** The credit side's vote and everything after it. */
    method Phase2(t: TxId, p: Plan, env: seq<Delivery>) returns (r: Result, v: Verdict)
      requires Valid() && machines.Keys == groups.Keys && p.from in groups && p.to in groups
      requires |env| == 5 && AllPossible(env)
      modifies this`machines, Objects()
      ensures Valid() && machines == Call(hash, old(machines), t, p, AskCredit, env[1..])
      ensures v == Done || v == InDoubt <==> env[1].sight == Replied && VoteOf(hash, old(machines), t, p, AskCredit)
      ensures v == Done <==> (v == Done || v == InDoubt) && Told(env)
      ensures v != NoGroup && v != ProposeFailed && !r.ok
    {
      hide ApplyCommand, Proposal, Valid, Call, VoteOf, Proposed, Possible, AllPossible;
      PossibleSlice(env, 1, 5);
      PossibleSlice(env, 2, 5);
      assert env[1..] == [env[1]] + env[2..] && env[2..] == env[2..5];
      var vote, n := Advance(t, p, AskCredit, env[1], env[2..]);
      if env[1].sight != Replied || !vote.ok {
        var _ := Decide(t, p, false, env[2..5]);
        if env[1].sight == Replied && vote.err != [] {
          return vote, TxAborted;
        }
        if env[1].sight == NotLeader {
          return Refused(ERR_NOT_LED), NotLed;
        }
        return Refused(if env[1].sight == Failed then ERR_NO_VOTE else ERR_NO_REASON), TxAborted;
      }
      var ok := Decide(t, p, true, env[2..5]);
      return Refused([]), if ok then Done else InDoubt;
    }

    /** An operation on one shard. */
    method Single(x: ShardId, cmd: Command, d: Delivery) returns (r: Result, v: Verdict)
      requires Valid() && Possible(d)
      modifies this`machines, Objects()
      ensures Valid()
      ensures machines == if x in groups then Proposed(hash, old(machines), x, SingleCommand(cmd), d.applied) else old(machines)
      ensures v == NoGroup <==> x !in groups
      ensures v == Done <==> x in groups && d.sight == Replied
      ensures v == NotLed <==> x in groups && d.sight == NotLeader
      ensures v == InDoubt <==> x in groups && d.sight == Failed
      ensures v == Done ==> r == ApplyCommand(hash, old(machines)[x], SingleCommand(cmd)).1
      ensures v != Done ==> !r.ok
    {
      hide ApplyCommand;
      if x !in groups {
        return Refused([]), NoGroup;
      }
      r := Propose(x, SingleCommand(cmd), d);
      if d.sight == Replied {
        return r, Done;
      }
      return Refused([]), if d.sight == NotLeader then NotLed else InDoubt;
    }

    /** Route by the accounts the command touches: one shard is a plain proposal, two are a transfer. */
    method Transfer(t: TxId, cmd: Command, now: Timestamp, owner: AccountId -> ShardId, env: seq<Delivery>)
      returns (r: Result, v: Verdict)
      requires Valid() && |env| == 5 && AllPossible(env)
      modifies this`machines, Objects()
      ensures Valid()
      ensures
        var c := cmd.(ts := if cmd.ts == UNSTAMPED then now else cmd.ts);
        Served(hash, old(machines), machines, t, c, owner, env, r, v)
    {
      hide ApplyCommand, Call, Possible, Valid, Proposed, BothVoted;
      Keys();
      PossibleSlice(env, 0, 5);
      var c := if cmd.ts == UNSTAMPED then cmd.(ts := now) else cmd;
      if c.op == OP_OPEN || c.op == OP_DEPOSIT {
        r, v := Single(owner(c.to), c, env[0]);
        return;
      }
      if c.op == OP_WITHDRAW {
        r, v := Single(owner(c.from), c, env[0]);
        return;
      }
      var from, to := owner(c.from), owner(c.to);
      if from == to {
        r, v := Single(from, c, env[0]);
        return;
      }
      r, v := TwoPhase(t, c, from, to, env);
      Keys();
    }

    // ----- recovery -----

    /** A no-op through the group's log: once it applies, so has everything ordered before it. */
    method CatchUp(x: ShardId, d: Delivery) returns (ok: bool)
      requires Valid() && x in groups
      modifies this`machines, Objects()
      ensures Valid() && machines == old(machines)
      ensures ok == (d.sight == Replied)
    {
      hide Valid;
      Keys();
      NoOp(hash, machines[x]);
      var _ := Propose(x, SingleCommand(NOTHING), d);
      ok := d.sight == Replied;
    }

    /** Ask the coordinator of one stuck transaction and propose its outcome on x. */
    method Resolve(x: ShardId, t: TxId, w: Weather, current: set<ShardId>,
                   ghost ms: Machines, ghost order: seq<ShardId>, ghost done: Settled, ghost trace: seq<Inquiry>)
      returns (ok: bool, failed: bool, ghost asked: seq<Inquiry>)
      requires Valid() && machines.Keys == groups.Keys && OneCoordinator(ms) && Progress(ms, machines, done)
        && OwnVerdicts(ms, done)
      requires Stuck(ms, x, t) && (x, t) !in done && x in groups && x in w.led && x !in w.behind
      requires current == Current(w, order + [x], x) && Tells(hash, ms, machines, trace)
      modifies this`machines, Objects()
      ensures Valid() && machines.Keys == groups.Keys
      ensures Progress(ms, machines, if Settles(ms, w, x, t) then done[(x, t) := Answer(ms, w, order + [x], x, t)] else done)
      ensures ok <==> Counted(ms, w, x, t)
      ensures ok <==> Reachable(ms, w, x, t) && Reply(w, x, t).sight != Failed
      ensures failed ==> !ok
      ensures Tells(hash, ms, machines, asked)
    {
      hide MachinesOk, ApplyCommand, OneCoordinator, Commits, RecoveryOutcome, Current, Tells, OwnVerdicts, Answer;
      assert RecordAt(ms, machines, done, x, t) && Shows(x);
      var rec := groups[x].txs[t];
      assert rec == ms[x].txs[t];
      var c := CoordinatorOf(rec);
      if c == [] || c !in groups || (x, t) in w.silent {
        return false, false, trace;
      }
      var lags := c in w.shown && c !in current;
      ghost var view := if lags then w.shown[c] else machines[c];
      assert Shows(c);
      var command := GroupOutcome(rec, if lags then w.shown[c].txs else groups[c].txs);
      assert command == RecoveryOutcome(rec, view) by { SameOutcome(rec, view); }
      Answered(hash, ms, w, order, machines, done, x, t, view);
      var d := Reply(w, x, t);
      asked := trace + [Inquiry(x, t, view, d.applied)];
      TellsMore(hash, ms, machines, trace, x, t, view, d.applied);
      var _ := Propose(x, command, d);
      return d.sight != Failed, d.sight == Failed, asked;
    }

    /** Every transaction of one group, in the order the scan found them. */
    method RecoverGroup(x: ShardId, w: Weather, current: set<ShardId>, ghost ms: Machines, ghost order: seq<ShardId>,
                        ghost done: Settled, ghost counted: set<(ShardId, TxId)>, ghost trace: seq<Inquiry>)
      returns (resolved: nat, blocked: nat, failed: bool, now: set<ShardId>,
               ghost more: Settled, ghost seen: set<(ShardId, TxId)>, ghost asked: seq<Inquiry>)
      requires Valid() && machines.Keys == groups.Keys && OneCoordinator(ms) && Progress(ms, machines, done)
      requires x in groups && x in ms && x !in order && Visited(ms, w, order, done) && AllCounted(ms, w, order, counted)
      requires current == UpToDate(w, order) && Tells(hash, ms, machines, trace)
      modifies this`machines, Objects()
      ensures Valid() && machines.Keys == groups.Keys && Progress(ms, machines, more)
        && Tells(hash, ms, machines, asked)
      ensures Visited(ms, w, order + [x], more) && AllCounted(ms, w, order + [x], seen)
      ensures blocked == 0 <==> Clear(ms, w, x)
      ensures failed ==> blocked > 0
      ensures |seen| == |counted| + resolved && now == UpToDate(w, order + [x])
    {
      hide Progress, OneCoordinator, Scanned, ScanCounted, Free, Valid, Visited, AllCounted, Reachable, Clear, Settles,
           Counted, Answer, Current, UpToDate, Tells, OwnVerdicts;
      resolved, blocked, failed, more, seen, asked := 0, 0, false, done, counted, trace;
      now := if x in w.led && x !in w.behind then current + {x} else current;
      NowCurrent(w, order, x);
      if x !in w.led {
        ScanGroup(ms, w, order, x, [], done, more);
        CountGroup(ms, w, order, x, [], counted, seen);
        return;
      }
      var caught := CatchUp(x, if x in w.behind then Delivery(false, Failed) else Delivery(true, Replied));
      if !caught {
        ScanGroup(ms, w, order, x, [], done, more);
        CountGroup(ms, w, order, x, [], counted, seen);
        blocked, failed := 1, true;
        return;
      }
      ScanStart(ms, w, order, x, done, counted);
      var ids := Scan(x, ms, done);
      resolved, blocked, failed, more, seen, asked := ResolveAll(x, ids, w, now, ms, order, done, counted, trace);
      ScanGroup(ms, w, order, x, ids, done, more);
      CountGroup(ms, w, order, x, ids, counted, seen);
    }

    /** The inner loop of a pass. */
    method ResolveAll(x: ShardId, ids: seq<TxId>, w: Weather, current: set<ShardId>, ghost ms: Machines,
                      ghost order: seq<ShardId>,
                      ghost done: Settled, ghost counted: set<(ShardId, TxId)>, ghost trace: seq<Inquiry>)
      returns (resolved: nat, blocked: nat, failed: bool, ghost more: Settled, ghost seen: set<(ShardId, TxId)>, ghost asked: seq<Inquiry>)
      requires Valid() && machines.Keys == groups.Keys && OneCoordinator(ms) && Progress(ms, machines, done)
      requires x in groups && x !in order && Visited(ms, w, order, done) && x in w.led && x !in w.behind
      requires current == Current(w, order + [x], x) && Tells(hash, ms, machines, trace)
      requires (forall t :: t in ids ==> Stuck(ms, x, t)) && (forall i, j :: 0 <= i < j < |ids| ==> ids[i] != ids[j])
      requires Scanned(ms, w, order, x, [], done, done) && ScanCounted(ms, w, x, [], counted, counted)
        && Free(ms, w, x, [])
      requires forall t :: (x, t) !in done && (x, t) !in counted
      modifies this`machines, Objects()
      ensures Valid() && machines.Keys == groups.Keys && Progress(ms, machines, more)
        && Tells(hash, ms, machines, asked)
      ensures Scanned(ms, w, order, x, ids, done, more) && ScanCounted(ms, w, x, ids, counted, seen)
      ensures (blocked == 0 <==> Free(ms, w, x, ids)) && (failed ==> blocked > 0) && |seen| == |counted| + resolved
    {
      hide Progress, OneCoordinator, Scanned, ScanCounted, Free, Valid, Visited, Reachable, Settles, Counted, Answer,
           Current, Tells, OwnVerdicts, Stuck;
      resolved, blocked, failed, more, seen, asked := 0, 0, false, done, counted, trace;
      for i := 0 to |ids|
        invariant Valid() && machines.Keys == groups.Keys && Progress(ms, machines, more)
          && Tells(hash, ms, machines, asked)
        invariant Scanned(ms, w, order, x, ids[..i], done, more) && ScanCounted(ms, w, x, ids[..i], counted, seen)
        invariant blocked == 0 <==> Free(ms, w, x, ids[..i])
        invariant failed ==> blocked > 0
        invariant |seen| == |counted| + resolved
      {
        var t := ids[i];
        ScanOne(ms, w, order, x, ids[..i], t, done, more);
        ScanCount(ms, w, x, ids[..i], t, counted, seen);
        ScannedOwn(ms, w, order, x, ids[..i], done, more);
        var ok, bad;
        ok, bad, asked := Resolve(x, t, w, current, ms, order, more, asked);
        more := if Settles(ms, w, x, t) then more[(x, t) := Answer(ms, w, order + [x], x, t)] else more;
        seen := if Counted(ms, w, x, t) then seen + {(x, t)} else seen;
        assert ids[..i + 1] == ids[..i] + [t];
        if ok {
          resolved := resolved + 1;
        } else {
          blocked := blocked + 1;
          failed := failed || bad;
        }
      }
      assert ids[..|ids|] == ids;
    }

    /** The group's in-doubt transactions are those that were stuck when the pass began. */
    method Scan(x: ShardId, ghost ms: Machines, ghost done: Settled) returns (ids: seq<TxId>)
      requires Valid() && Progress(ms, machines, done) && x in groups && x in ms && forall t :: (x, t) !in done
      ensures forall t :: t in ids <==> Stuck(ms, x, t)
      ensures forall i, j :: 0 <= i < j < |ids| ==> ids[i] != ids[j]
    {
      hide MachinesOk, Stuck;
      ids := groups[x].InDoubt();
      assert Shows(x);
      StuckHere(ms, machines, done, x, ids);
    }

    /** One pass over all groups, in whatever order the map yields them. */
    method RecoverInDoubt(w: Weather)
      returns (resolved: nat, v: Verdict, ghost done: Settled, ghost order: seq<ShardId>,
               ghost counted: set<(ShardId, TxId)>, ghost trace: seq<Inquiry>)
      requires Valid() && MachinesOk(machines) && OneCoordinator(machines)
      modifies this`machines, Objects()
      ensures Valid() && Progress(old(machines), machines, done)
      ensures (forall x :: x in order <==> x in groups) && Visited(old(machines), w, order, done)
      ensures v == Done <==> AllClear(old(machines), w, groups.Keys)
      ensures resolved == |counted| && AllCounted(old(machines), w, order, counted)
      ensures Tells(hash, old(machines), machines, trace)
    {
      hide MachinesOk, OneCoordinator, Progress, Visited, AllCounted, AllClear, Valid, UpToDate, Tells;
      Keys();
      ghost var ms := machines;
      done, resolved, order, counted, trace := map[], 0, [], {}, [];
      StartProgress(hash, ms, w);
      var blocked: nat, failed: bool, current: set<ShardId> := 0, false, {};
      var todo := groups.Keys;
      while todo != {}
        invariant todo <= groups.Keys && forall x :: x in order <==> x in groups.Keys - todo
        invariant Valid() && machines.Keys == groups.Keys && Progress(ms, machines, done)
          && Tells(hash, ms, machines, trace)
        invariant Visited(ms, w, order, done) && AllCounted(ms, w, order, counted) && current == UpToDate(w, order)
        invariant blocked == 0 <==> AllClear(ms, w, set y | y in order)
        invariant failed ==> blocked > 0
        invariant resolved == |counted|
      {
        var x :| x in todo;
        var n, b, f;
        n, b, f, current, done, counted, trace := RecoverGroup(x, w, current, ms, order, done, counted, trace);
        ClearGroup(ms, w, order, x);
        resolved, blocked, failed, order := resolved + n, blocked + b, failed || f, order + [x];
        todo := todo - {x};
      }
      assert (set y | y in order) == groups.Keys;
      v := if failed then ProposeFailed else if blocked > 0 then InDoubt else Done;
    }
  }

  /** One proposal, on the group of x and no other. */
  ghost predicate RanOn(hash: Str -> nat, ms: Machines, now: Machines, x: ShardId, c: Command, d: Delivery,
                        r: Result, v: Verdict) {
    && now == (if x in ms then Proposed(hash, ms, x, SingleCommand(c), d.applied) else ms)
    && (v == NoGroup <==> x !in ms)
    && (v == Done <==> x in ms && d.sight == Replied)
    && (v == Done ==> r == ApplyCommand(hash, ms[x], SingleCommand(c)).1)
    && (v != Done ==> !r.ok)
  }

  /** The protocol, between the groups of the plan and no others. */
  ghost predicate RanBetween(hash: Str -> nat, ms: Machines, now: Machines, t: TxId, p: Plan, env: seq<Delivery>,
                             r: Result, v: Verdict)
    requires |env| == 5
  {
    && now == CallOf(hash, ms, t, p, env)
    && (v == NoGroup <==> p.from !in ms || p.to !in ms)
    && (v == Done || v == InDoubt <==> v != NoGroup && BothVoted(hash, ms, t, p, env))
    && (v == Done <==> (v == Done || v == InDoubt) && Told(env))
    && (r.ok <==> v == Done)
    && (v == Done ==> p.from in now && r.balance == Available(now[p.from].ledger, p.cmd.from))
  }

  /** A command is served where the accounts it touches are kept. */
  ghost predicate Served(hash: Str -> nat, ms: Machines, now: Machines, t: TxId, c: Command, owner: AccountId -> ShardId,
                         env: seq<Delivery>, r: Result, v: Verdict)
    requires |env| == 5
  {
    if c.op == OP_OPEN || c.op == OP_DEPOSIT then RanOn(hash, ms, now, owner(c.to), c, env[0], r, v)
    else if c.op == OP_WITHDRAW || owner(c.from) == owner(c.to) then RanOn(hash, ms, now, owner(c.from), c, env[0], r, v)
    else RanBetween(hash, ms, now, t, Plan(c, owner(c.from), owner(c.to)), env, r, v)
  }

  /** The decision and both outcomes got through. */
  ghost predicate Told(env: seq<Delivery>)
    requires |env| == 5
  {
    env[2].sight == Replied && env[3].sight != Failed && env[4].sight != Failed
  }

  /** The empty ledger command catch-up proposes. */
  const NOTHING := Command(0, [], [], [], 0, UNSTAMPED)

  lemma NoOp(hash: Str -> nat, m: S.Machine)
    ensures ApplyCommand(hash, m, SingleCommand(NOTHING)).0 == m
  {
  }

  /** The outcome proposed for rec, given the coordinator group's records. */
  function GroupOutcome(rec: TxRecord, txs: map<TxId, TxRecord>): ShardCommand {
    var commit := rec.id in txs && txs[rec.id].decided && txs[rec.id].commit;
    ShardCommand(OP_OUTCOME, rec.id, rec.cmd, commit, rec.debit, rec.participants, CoordinatorOf(rec))
  }

  lemma SameOutcome(rec: TxRecord, m: S.Machine)
    ensures GroupOutcome(rec, m.txs) == RecoveryOutcome(rec, m)
  {
  }

  lemma StuckHere(ms: Machines, now: Machines, done: Settled, x: ShardId, ids: seq<TxId>)
    requires Progress(ms, now, done) && x in ms && forall t :: (x, t) !in done
    requires forall t :: t in ids <==> t in now[x].txs && now[x].txs[t].phase == Prepared
    ensures forall t :: t in ids <==> Stuck(ms, x, t)
  {
    hide MachinesOk;
    forall t
      ensures t in ids <==> Stuck(ms, x, t)
    {
      assert RecordAt(ms, now, done, x, t);
    }
  }

  lemma StartProgress(hash: Str -> nat, ms: Machines, w: Weather)
    requires MachinesOk(ms)
    ensures Progress(ms, ms, map[]) && Visited(ms, w, [], map[]) && AllCounted(ms, w, [], {}) && Tells(hash, ms, ms, [])
    ensures AllClear(ms, w, set y | y in []) && UpToDate(w, []) == {}
  {
  }

  lemma ScanStart(ms: Machines, w: Weather, order: seq<ShardId>, x: ShardId, done: Settled,
                  counted: set<(ShardId, TxId)>)
    requires Visited(ms, w, order, done) && AllCounted(ms, w, order, counted) && x !in order
    ensures Scanned(ms, w, order, x, [], done, done) && ScanCounted(ms, w, x, [], counted, counted)
      && Free(ms, w, x, [])
    ensures forall t :: (x, t) !in done && (x, t) !in counted
  {
    hide Settles, Counted, Answer;
  }

  /** In the middle of a scan too, coordinator groups settle their own records as they stand. */
  lemma ScannedOwn(ms: Machines, w: Weather, order: seq<ShardId>, x: ShardId, ids: seq<TxId>, done: Settled,
                   more: Settled)
    requires Visited(ms, w, order, done) && Scanned(ms, w, order, x, ids, done, more) && x !in order
    ensures OwnVerdicts(ms, more)
  {
    hide Commits, Settles, Before;
    VisitedOwn(ms, w, order, done);
  }

  /** The groups caught up so far. */
  ghost function UpToDate(w: Weather, order: seq<ShardId>): set<ShardId> {
    set y | y in order && y in w.led && y !in w.behind
  }

  /** Settling a record by what the coordinator group's replica shows. */
  lemma Answered(hash: Str -> nat, ms: Machines, w: Weather, order: seq<ShardId>, now: Machines, done: Settled,
                 x: ShardId, t: TxId, view: S.Machine)
    requires OneCoordinator(ms) && Progress(ms, now, done) && OwnVerdicts(ms, done) && Stuck(ms, x, t)
      && (x, t) !in done
    requires CoordinatorOf(ms[x].txs[t]) in ms
    requires
      var c := CoordinatorOf(ms[x].txs[t]);
      c in now && view == if c in w.shown && c !in Current(w, order + [x], x) then w.shown[c] else now[c]
    ensures Askable(now, Inquiry(x, t, view, true)) && now[x].txs[t] == ms[x].txs[t]
    ensures Progress(ms, now[x := ApplyCommand(hash, now[x], RecoveryOutcome(now[x].txs[t], view)).0],
                     done[(x, t) := Answer(ms, w, order + [x], x, t)])
  {
    hide MachinesOk, ApplyCommand, OneCoordinator, Commits, RecoveryOutcome, Decision, OwnVerdicts, Before;
    assert RecordAt(ms, now, done, x, t);
    SameVerdict(ms, now, done, x, t);
    ResolveStep(hash, ms, now, done, x, t, view);
  }

  lemma NowCurrent(w: Weather, order: seq<ShardId>, x: ShardId)
    requires x !in order
    ensures UpToDate(w, order + [x]) == if x in w.led && x !in w.behind then UpToDate(w, order) + {x} else UpToDate(w, order)
    ensures Current(w, order + [x], x) == UpToDate(w, order) + {x}
  {
    BeforeLast(order, x);
  }

  // ----- a pass is a run -----

  /** One inquiry of a pass: who asked about what, what the replica showed, and whether the outcome took effect. */
  datatype Inquiry = Inquiry(shard: ShardId, t: TxId, view: S.Machine, applied: bool)

  ghost function Enact(hash: Str -> nat, ms: Machines, q: Inquiry): Machines {
    if q.applied && Stuck(ms, q.shard, q.t) then Proposed(hash, ms, q.shard, RecoveryOutcome(ms[q.shard].txs[q.t], q.view), true) else ms
  }

  /** An inquiry recovery can make: about a stuck record, of a known coordinator, current if the group asks itself. */
  ghost predicate Askable(ms: Machines, q: Inquiry) {
    && Stuck(ms, q.shard, q.t)
    && var c := CoordinatorOf(ms[q.shard].txs[q.t]);
       c in ms && (c == q.shard ==> q.view == ms[c])
  }

  /** The pass from ms to now, inquiry by inquiry. */
  ghost predicate Tells(hash: Str -> nat, ms: Machines, now: Machines, trace: seq<Inquiry>)
    decreases |trace|
  {
    if trace == [] then now == ms
    else
      var n := |trace| - 1;
      exists mid: Machines :: Tells(hash, ms, mid, trace[..n]) && Askable(mid, trace[n]) && now == Enact(hash, mid, trace[n])
  }

  lemma TellsMore(hash: Str -> nat, ms: Machines, now: Machines, trace: seq<Inquiry>, x: ShardId, t: TxId,
                  view: S.Machine, applied: bool)
    requires Tells(hash, ms, now, trace) && Askable(now, Inquiry(x, t, view, applied))
    ensures
      Tells(hash, ms, Proposed(hash, now, x, RecoveryOutcome(now[x].txs[t], view), applied), trace + [Inquiry(x, t, view, applied)])
  {
    hide ApplyCommand, RecoveryOutcome;
    var q := Inquiry(x, t, view, applied);
    assert (trace + [q])[..|trace|] == trace;
    assert Proposed(hash, now, x, RecoveryOutcome(now[x].txs[t], view), applied) == Enact(hash, now, q);
  }

  ghost predicate Follows(hash: Str -> nat, run: seq<System>, events: seq<Event>) {
    && |run| == |events| + 1
    && forall i :: 0 <= i < |events| ==> Enabled(run[i], events[i]) && run[i + 1] == Next(hash, run[i], events[i])
  }

  lemma FollowsMore(hash: Str -> nat, run: seq<System>, events: seq<Event>, e: Event)
    requires Follows(hash, run, events) && Enabled(run[|run| - 1], e)
    ensures Follows(hash, run + [Next(hash, run[|run| - 1], e)], events + [e])
  {
    hide Enabled, Next;
  }

  /** What RecoverInDoubt does to the machines is a run of inquiries and deliveries, once the calls it settles have stopped. */
  lemma {:induction false} PassIsRun(hash: Str -> nat, s: System, now: Machines, trace: seq<Inquiry>)
    returns (run: seq<System>, events: seq<Event>)
    requires Tells(hash, s.machines, now, trace) && forall q :: q in trace ==> q.t in s.jobs && s.jobs[q.t].pc == Stopped
    ensures Follows(hash, run, events) && run[0] == s && run[|run| - 1].machines == now && run[|run| - 1].jobs == s.jobs
    ensures forall e :: e in events ==> e.Inquire? || e.Deliver?
    decreases |trace|
  {
    hide Follows, Enact, Askable, Enabled, Next, RecoveryOutcome;
    if trace == [] {
      run, events := [s], [];
      assert Follows(hash, run, events) by { OneState(hash, s); }
    } else {
      var n := |trace| - 1;
      var q := trace[n];
      var mid: Machines :| Tells(hash, s.machines, mid, trace[..n]) && Askable(mid, q) && now == Enact(hash, mid, q);
      assert forall p :: p in trace[..n] ==> p in trace;
      run, events := PassIsRun(hash, s, mid, trace[..n]);
      FollowsShape(hash, run, events);
      var last := run[|run| - 1];
      var ask := Inquire(q.shard, q.t, q.view);
      var l := AskStep(hash, last, q);
      FollowsMore(hash, run, events, ask);
      run, events := run + [Next(hash, last, ask)], events + [ask];
      if q.applied {
        FollowsMore(hash, run, events, Deliver(l));
        run, events := run + [Next(hash, Next(hash, last, ask), Deliver(l))], events + [Deliver(l)];
      }
    }
  }

  /** One inquiry, and the outcome it leads to. */
  lemma AskStep(hash: Str -> nat, s: System, q: Inquiry) returns (l: Late)
    requires Askable(s.machines, q) && q.t in s.jobs && s.jobs[q.t].pc == Stopped
    ensures
      var ask := Inquire(q.shard, q.t, q.view);
      && Enabled(s, ask)
      && var s' := Next(hash, s, ask);
         && s'.machines == s.machines && s'.jobs == s.jobs && Enabled(s', Deliver(l))
         && (!q.applied ==> Enact(hash, s.machines, q) == s.machines)
         && (q.applied ==>
               var s'' := Next(hash, s', Deliver(l));
               s''.machines == Enact(hash, s.machines, q) && s''.jobs == s.jobs)
  {
    hide ApplyCommand, RecoveryOutcome;
    l := Late(q.shard, RecoveryOutcome(s.machines[q.shard].txs[q.t], q.view));
  }

  lemma OneState(hash: Str -> nat, s: System)
    ensures Follows(hash, [s], [])
  {
  }

  lemma FollowsShape(hash: Str -> nat, run: seq<System>, events: seq<Event>)
    requires Follows(hash, run, events)
    ensures |run| == |events| + 1
  {
  }

  ghost predicate AllPossible(env: seq<Delivery>) { forall i :: 0 <= i < |env| ==> Possible(env[i]) }

  lemma PossibleSlice(env: seq<Delivery>, a: nat, b: nat)
    requires AllPossible(env) && a <= b <= |env|
    ensures AllPossible(env[a..b]) && (a < |env| ==> Possible(env[a]))
  {
  }

  /** The vote, or more generally the result, the proposal of pc would get. */
  ghost predicate VoteOf(hash: Str -> nat, ms: map<ShardId, S.Machine>, t: TxId, p: Plan, pc: Pc) {
    Target(p, pc) in ms && ApplyCommand(hash, ms[Target(p, pc)], Proposal(t, p, pc)).1.ok
  }

  /** Both participants were heard to vote yes. */
  ghost predicate BothVoted(hash: Str -> nat, ms: map<ShardId, S.Machine>, t: TxId, p: Plan, env: seq<Delivery>)
    requires |env| == 5
  {
    && p.from in ms && p.to in ms
    && env[0].sight == Replied && VoteOf(hash, ms, t, p, AskDebit)
    && env[1].sight == Replied
    && VoteOf(hash, Proposed(hash, ms, p.from, Proposal(t, p, AskDebit), env[0].applied), t, p, AskCredit)
  }

  ghost function CallOf(hash: Str -> nat, ms: map<ShardId, S.Machine>, t: TxId, p: Plan, env: seq<Delivery>): map<ShardId, S.Machine> {
    if p.from in ms && p.to in ms then Call(hash, ms, t, p, AskDebit, env) else ms
  }

  lemma CallStep(hash: Str -> nat, ms: map<ShardId, S.Machine>, t: TxId, p: Plan, pc: Pc, env: seq<Delivery>)
    requires p.from in ms && p.to in ms && pc != Stopped && env != []
    ensures Target(p, pc) in ms
    ensures
      var x, c := Target(p, pc), Proposal(t, p, pc);
      var ms' := Proposed(hash, ms, x, c, env[0].applied);
      && ms'.Keys == ms.Keys
      && Call(hash, ms, t, p, pc, env) == Call(hash, ms', t, p, NextPc(pc, env[0].sight, VoteOf(hash, ms, t, p, pc)), env[1..])
  {
    hide ApplyCommand, Proposal;
  }

  lemma CallStopped(hash: Str -> nat, ms: map<ShardId, S.Machine>, t: TxId, p: Plan, env: seq<Delivery>)
    requires p.from in ms && p.to in ms
    ensures Call(hash, ms, t, p, Stopped, env) == ms
  {
  }

  function Steps(pc: Pc): nat {
    match pc
    case AskDebit => 5
    case AskCredit => 4
    case LogDecision(_) => 3
    case TellDebit(_) => 2
    case TellCredit(_) => 1
    case Stopped => 0
  }

  /** Deliveries a call does not get to do not matter. */
  lemma {:induction false} CallLong(hash: Str -> nat, ms: map<ShardId, S.Machine>, t: TxId, p: Plan, pc: Pc, env: seq<Delivery>, n: nat)
    requires p.from in ms && p.to in ms && Steps(pc) <= n <= |env|
    ensures Call(hash, ms, t, p, pc, env) == Call(hash, ms, t, p, pc, env[..n])
    decreases n
  {
    hide ApplyCommand, Proposal, Proposed;
    if pc == Stopped {
      CallStopped(hash, ms, t, p, env);
      CallStopped(hash, ms, t, p, env[..n]);
    } else {
      var x, c := Target(p, pc), Proposal(t, p, pc);
      var next := NextPc(pc, env[0].sight, VoteOf(hash, ms, t, p, pc));
      CallStep(hash, ms, t, p, pc, env);
      CallStep(hash, ms, t, p, pc, env[..n]);
      CallLong(hash, Proposed(hash, ms, x, c, env[0].applied), t, p, next, env[1..], n - 1);
      assert env[..n][1..] == env[1..][..n - 1];
    }
  }

  // ----- the object follows the protocol -----

  /** The Drive events of one call, with nothing in between. */
  ghost function DriveAll(hash: Str -> nat, s: System, t: TxId, env: seq<Delivery>): System
    requires AllPossible(env)
    decreases |env|
  {
    if env == [] || !Enabled(s, Drive(t, env[0])) then s
    else DriveAll(hash, Next(hash, s, Drive(t, env[0])), t, env[1..])
  }

  /** What TwoPhase does to the machines is a run of protocol steps. */
  lemma {:induction false} CallIsDrives(hash: Str -> nat, s: System, t: TxId, env: seq<Delivery>)
    requires t in s.jobs && s.jobs[t].plan.from in s.machines && s.jobs[t].plan.to in s.machines
    requires AllPossible(env)
    ensures DriveAll(hash, s, t, env).machines == Call(hash, s.machines, t, s.jobs[t].plan, s.jobs[t].pc, env)
    decreases |env|
  {
    hide ApplyCommand, Proposal;
    var j := s.jobs[t];
    if env != [] && j.pc != Stopped {
      CallStep(hash, s.machines, t, j.plan, j.pc, env);
      CallIsDrives(hash, Next(hash, s, Drive(t, env[0])), t, env[1..]);
    }
  }

  // ----- what a verdict means -----

  ghost function DebitOf(ms: map<ShardId, S.Machine>, t: TxId, p: Plan): Option<TxRecord> {
    if p.from in ms then RecordOf(ms[p.from], t) else None
  }

  /** Along a call, both machines stay sound and the records follow the transfer's invariant. */
  ghost predicate Fit(ms: map<ShardId, S.Machine>, t: TxId, p: Plan, pc: Pc) {
    && p.from in ms && p.to in ms && p.from != p.to && MachineOk(ms[p.from]) && MachineOk(ms[p.to])
    && PairOk(p, pc, RecordOf(ms[p.from], t), RecordOf(ms[p.to], t))
  }

  lemma FitStep(hash: Str -> nat, ms: map<ShardId, S.Machine>, t: TxId, p: Plan, pc: Pc, d: Delivery)
    requires Fit(ms, t, p, pc) && pc != Stopped && Possible(d)
    ensures Target(p, pc) in ms
    ensures
      var ms' := Proposed(hash, ms, Target(p, pc), Proposal(t, p, pc), d.applied);
      var ok := VoteOf(hash, ms, t, p, pc);
      && Fit(ms', t, p, NextPc(pc, d.sight, ok))
      && DebitOf(ms', t, p) == DebitAfter(t, p, pc, d.applied, ok, DebitOf(ms, t, p))
  {
    hide MachineOk, ApplyCommand, NextRecord, PairOk, Possible, NextPc;
    var x, c := Target(p, pc), Proposal(t, p, pc);
    ProposalMeets(ms, t, p, pc);
    MachineStepOk(hash, ms[x], c);
    ApplyRecord(hash, ms[x], c, t);
    DriveOk(t, p, pc, RecordOf(ms[p.from], t), RecordOf(ms[p.to], t), d, VoteOf(hash, ms, t, p, pc));
  }

  /** A decision is only proposed where the record exists. */
  lemma ProposalMeets(ms: map<ShardId, S.Machine>, t: TxId, p: Plan, pc: Pc)
    requires Fit(ms, t, p, pc) && pc != Stopped
    ensures
      var x, c := Target(p, pc), Proposal(t, p, pc);
      && x in ms && (c.op == OP_PREPARE || c.op == OP_OUTCOME || (c.op == OP_DECISION && c.txId in ms[x].txs))
      && c.txId == t && (c.op == OP_DECISION ==> |c.participants| > 0 && (c.coordinator != [] || ms[x].txs[c.txId].coordinator == []))
  {
    hide MachineOk;
  }

  /** After the votes, the commit decision is durable exactly if it was to commit and its proposal took effect. */
  lemma {:induction false} CallDecides(hash: Str -> nat, ms: map<ShardId, S.Machine>, t: TxId, p: Plan, pc: Pc, env: seq<Delivery>)
    requires Fit(ms, t, p, pc) && !pc.AskDebit? && !pc.AskCredit? && |env| >= Steps(pc)
    requires AllPossible(env)
    ensures CommitDecided(DebitOf(Call(hash, ms, t, p, pc, env), t, p)) <==>
      if pc.LogDecision? then pc.commit && env[0].applied else CommitDecided(DebitOf(ms, t, p))
    decreases Steps(pc)
  {
    hide MachineOk, ApplyCommand, Call, Proposed, Possible;
    if pc == Stopped {
      CallStopped(hash, ms, t, p, env);
    } else {
      CallStep(hash, ms, t, p, pc, env);
      FitStep(hash, ms, t, p, pc, env[0]);
      var ms' := Proposed(hash, ms, Target(p, pc), Proposal(t, p, pc), env[0].applied);
      CallDecides(hash, ms', t, p, NextPc(pc, env[0].sight, VoteOf(hash, ms, t, p, pc)), env[1..]);
    }
  }

  /**
   The verdict is sound.  For a fresh transaction the debit shard ends up with a commit decision exactly
   if both votes were heard and the decision's proposal took effect; so Done means committed for good,
   and any verdict but Done and InDoubt means no commit decision exists.
   */
  lemma DecidedExactly(hash: Str -> nat, ms: map<ShardId, S.Machine>, t: TxId, p: Plan, env: seq<Delivery>)
    requires Fit(ms, t, p, AskDebit) && |env| == 5 && AllPossible(env)
    ensures CommitDecided(DebitOf(CallOf(hash, ms, t, p, env), t, p)) <==>
      BothVoted(hash, ms, t, p, env) && env[2].applied
  {
    hide MachineOk, ApplyCommand, Call, Proposed, Possible, PairOk, VoteOf;
    CallStep(hash, ms, t, p, AskDebit, env);
    FitStep(hash, ms, t, p, AskDebit, env[0]);
    var m1 := Proposed(hash, ms, p.from, Proposal(t, p, AskDebit), env[0].applied);
    var pc1 := NextPc(AskDebit, env[0].sight, VoteOf(hash, ms, t, p, AskDebit));
    var rest := env[1..];
    if pc1 == Stopped {
      CallStopped(hash, m1, t, p, rest);
      assert !CommitDecided(DebitOf(ms, t, p)) by { FreshUndecided(ms, t, p); }
    } else if pc1 == AskCredit {
      CallStep(hash, m1, t, p, AskCredit, rest);
      FitStep(hash, m1, t, p, AskCredit, rest[0]);
      var m2 := Proposed(hash, m1, p.to, Proposal(t, p, AskCredit), rest[0].applied);
      CallDecides(hash, m2, t, p, NextPc(AskCredit, rest[0].sight, VoteOf(hash, m1, t, p, AskCredit)), rest[1..]);
    } else {
      CallDecides(hash, m1, t, p, pc1, rest);
    }
  }

  lemma FreshUndecided(ms: map<ShardId, S.Machine>, t: TxId, p: Plan)
    requires Fit(ms, t, p, AskDebit)
    ensures DebitOf(ms, t, p) == None
  {
    hide MachineOk;
  }
}
