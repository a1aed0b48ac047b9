/**
 One recovery pass, whatever order the groups and transactions are visited in and whatever becomes of its
 inquiries and proposals: which records it settles and how, what it reports, and when the order matters.
 */
module TwoPhaseRecovery {
  import opened Bytes
  import opened Ledger
  import opened ShardMachine
  import opened TwoPhase
  import opened TwoPhaseRuns

  type Machines = map<ShardId, Machine>

  /**
   The environment of a pass: the groups led here, those that cannot be brought up to date, the inquiries whose
   coordinator group is not led here at that moment, what becomes of each outcome proposal (applied and answered
   unless listed), and the groups whose local replica still shows an earlier machine until it is caught up.
   */
  datatype Weather = Weather(
    led: set<ShardId>,
    behind: set<ShardId>,
    silent: set<(ShardId, TxId)>,
    replies: map<(ShardId, TxId), Delivery>,
    shown: Machines)

  function Reply(w: Weather, x: ShardId, t: TxId): Delivery {
    if (x, t) in w.replies then w.replies[(x, t)] else Delivery(true, Replied)
  }

  ghost predicate Stuck(ms: Machines, x: ShardId, t: TxId) {
    x in ms && t in ms[x].txs && ms[x].txs[t].phase == Prepared
  }

  /** The coordinator of a stuck record is named, known and led here. */
  ghost predicate Reachable(ms: Machines, w: Weather, x: ShardId, t: TxId)
    requires Stuck(ms, x, t)
  {
    var c := CoordinatorOf(ms[x].txs[t]);
    c != [] && c in ms && (x, t) !in w.silent
  }

  /** The outcome the coordinator group stands for: commit only if it recorded a commit decision. */
  ghost predicate Commits(ms: Machines, x: ShardId, t: TxId)
    requires Stuck(ms, x, t)
  {
    var c := CoordinatorOf(ms[x].txs[t]);
    c in ms && Decision(ms[c], t) == Some(true)
  }

  // ----- the order of a pass -----

  /** The groups visited before x. */
  function Before(order: seq<ShardId>, x: ShardId): set<ShardId> {
    if order == [] || order[0] == x then {} else {order[0]} + Before(order[1..], x)
  }

  /** The groups whose replica is current when x is scanned: x itself, and those caught up earlier in the pass. */
  ghost function Current(w: Weather, order: seq<ShardId>, x: ShardId): set<ShardId> {
    (set y | y in Before(order, x) && y in w.led && y !in w.behind) + {x}
  }

  /** The answer an inquiry from x gets: from a lagging replica, what that replica shows. */
  ghost predicate Answer(ms: Machines, w: Weather, order: seq<ShardId>, x: ShardId, t: TxId)
    requires Stuck(ms, x, t)
  {
    var c := CoordinatorOf(ms[x].txs[t]);
    if c in w.shown && c !in Current(w, order, x) then Decision(w.shown[c], t) == Some(true) else Commits(ms, x, t)
  }

  lemma {:induction false} BeforeStays(order: seq<ShardId>, y: ShardId, x: ShardId)
    requires x in order
    ensures Before(order + [y], x) == Before(order, x)
    decreases |order|
  {
    assert (order + [y])[0] == order[0];
    if order[0] != x {
      BeforeStays(order[1..], y, x);
      assert (order + [y])[1..] == order[1..] + [y];
    }
  }

  lemma {:induction false} BeforeLast(order: seq<ShardId>, x: ShardId)
    requires x !in order
    ensures Before(order + [x], x) == set y | y in order
    decreases |order|
  {
    if order != [] {
      BeforeLast(order[1..], x);
      assert (order + [x])[0] == order[0] && (order + [x])[1..] == order[1..] + [x];
      assert (set y | y in order) == {order[0]} + (set y | y in order[1..]);
    }
  }

  // ----- the records -----

  ghost function Resolved(ms: Machines, x: ShardId, t: TxId, commit: bool): TxRecord
    requires Stuck(ms, x, t)
  {
    ms[x].txs[t].(phase := if commit then Committed else Aborted, decided := true, commit := commit)
  }

  /** Any coordinator that is itself stuck on the transaction names itself. */
  ghost predicate OneCoordinator(ms: Machines) {
    forall x, t :: Stuck(ms, x, t) && Stuck(ms, CoordinatorOf(ms[x].txs[t]), t) ==>
      CoordinatorOf(ms[CoordinatorOf(ms[x].txs[t])].txs[t]) == CoordinatorOf(ms[x].txs[t])
  }

  /** What a pass has settled so far, and how. */
  type Settled = map<(ShardId, TxId), bool>

  /** The records in done are settled as it says; all others are as they were. */
  ghost predicate Progress(ms: Machines, now: Machines, done: Settled) {
    && now.Keys == ms.Keys && MachinesOk(now)
    && (forall x, t :: (x, t) in done ==> Stuck(ms, x, t))
    && (forall x, t :: x in ms ==> RecordAt(ms, now, done, x, t))
  }

  ghost predicate RecordAt(ms: Machines, now: Machines, done: Settled, x: ShardId, t: TxId)
    requires x in ms
  {
    && x in now
    && RecordOf(now[x], t) == if (x, t) in done && Stuck(ms, x, t) then Some(Resolved(ms, x, t, done[(x, t)]))
                              else RecordOf(ms[x], t)
  }

  /** A coordinator group's own records are settled as the group stands. */
  ghost predicate OwnVerdicts(ms: Machines, done: Settled) {
    forall x, t :: (x, t) in done && Stuck(ms, x, t) && CoordinatorOf(ms[x].txs[t]) == x ==> done[(x, t)] == Commits(ms, x, t)
  }

  /** Settling records does not change what the coordinator groups stand for. */
  lemma SameVerdict(ms: Machines, now: Machines, done: Settled, x: ShardId, t: TxId)
    requires OneCoordinator(ms) && Progress(ms, now, done) && OwnVerdicts(ms, done)
    requires Stuck(ms, x, t) && CoordinatorOf(ms[x].txs[t]) in ms
    ensures
      var c := CoordinatorOf(ms[x].txs[t]);
      c in now && (Decision(now[c], t) == Some(true) <==> Commits(ms, x, t))
  {
    hide MachinesOk;
    var c := CoordinatorOf(ms[x].txs[t]);
    assert RecordAt(ms, now, done, c, t);
  }

  /** Settling one more record, by whatever view, changes that record and no other. */
  lemma ResolveStep(hash: Str -> nat, ms: Machines, now: Machines, done: Settled, x: ShardId, t: TxId, view: Machine)
    requires Progress(ms, now, done) && Stuck(ms, x, t) && (x, t) !in done
    ensures x in now && t in now[x].txs && now[x].txs[t] == ms[x].txs[t]
    ensures
      var c := RecoveryOutcome(now[x].txs[t], view);
      Progress(ms, now[x := ApplyCommand(hash, now[x], c).0], done[(x, t) := Decision(view, t) == Some(true)])
  {
    hide MachineOk, ApplyCommand, Decision;
    assert RecordAt(ms, now, done, x, t);
    IdMatches(now[x], t);
    var c := RecoveryOutcome(now[x].txs[t], view);
    MachineStepOk(hash, now[x], c);
    var now' := now[x := ApplyCommand(hash, now[x], c).0];
    var done' := done[(x, t) := Decision(view, t) == Some(true)];
    forall y, u | y in ms
      ensures RecordAt(ms, now', done', y, u)
    {
      assert RecordAt(ms, now, done, y, u);
      if y == x {
        ApplyRecord(hash, now[x], c, u);
      }
    }
  }

  // ----- what a pass gets to -----

  /** An outcome is proposed for it. */
  ghost predicate Tried(ms: Machines, w: Weather, x: ShardId, t: TxId) {
    Stuck(ms, x, t) && x in w.led && x !in w.behind && Reachable(ms, w, x, t)
  }

  ghost predicate Settles(ms: Machines, w: Weather, x: ShardId, t: TxId) {
    Tried(ms, w, x, t) && Reply(w, x, t).applied
  }

  /** The proposal returned no error; that it was not led here any more is no error. */
  ghost predicate Counted(ms: Machines, w: Weather, x: ShardId, t: TxId) {
    Tried(ms, w, x, t) && Reply(w, x, t).sight != Failed
  }

  /** Nothing stands in the way on x, as far as the pass can tell. */
  ghost predicate Clear(ms: Machines, w: Weather, x: ShardId) {
    x in w.led && x in ms ==>
      x !in w.behind && forall t :: Stuck(ms, x, t) ==> Reachable(ms, w, x, t) && Reply(w, x, t).sight != Failed
  }

  ghost predicate AllClear(ms: Machines, w: Weather, seen: set<ShardId>) {
    forall x :: x in seen ==> Clear(ms, w, x)
  }

  /** The groups of order are finished, in that order, the others untouched. */
  ghost predicate Visited(ms: Machines, w: Weather, order: seq<ShardId>, done: Settled) {
    && (forall x, t :: (x, t) in done <==> x in order && Settles(ms, w, x, t))
    && (forall x, t :: (x, t) in done && Stuck(ms, x, t) ==> done[(x, t)] == Answer(ms, w, order, x, t))
  }

  ghost predicate AllCounted(ms: Machines, w: Weather, order: seq<ShardId>, counted: set<(ShardId, TxId)>) {
    forall x, t :: (x, t) in counted <==> x in order && Counted(ms, w, x, t)
  }

  lemma VisitedOwn(ms: Machines, w: Weather, order: seq<ShardId>, done: Settled)
    requires Visited(ms, w, order, done)
    ensures OwnVerdicts(ms, done)
  {
    hide Commits, Settles;
  }

  // ----- the two loops of a pass -----

  /** On group x, next in order, the transactions in ids are finished. */
  ghost predicate Scanned(ms: Machines, w: Weather, order: seq<ShardId>, x: ShardId, ids: seq<TxId>, done: Settled, more: Settled) {
    && (forall y, t :: (y, t) in more <==> (y, t) in done || (y == x && t in ids && Settles(ms, w, x, t)))
    && (forall k :: k in done && k in more ==> more[k] == done[k])
    && (forall t :: (x, t) in more && (x, t) !in done && Stuck(ms, x, t) ==> more[(x, t)] == Answer(ms, w, order + [x], x, t))
  }

  ghost predicate ScanCounted(ms: Machines, w: Weather, x: ShardId, ids: seq<TxId>, counted: set<(ShardId, TxId)>,
                              now: set<(ShardId, TxId)>) {
    forall y, t :: (y, t) in now <==> (y, t) in counted || (y == x && t in ids && Counted(ms, w, x, t))
  }

  ghost predicate Free(ms: Machines, w: Weather, x: ShardId, ids: seq<TxId>) {
    forall t :: t in ids ==> Stuck(ms, x, t) && Reachable(ms, w, x, t) && Reply(w, x, t).sight != Failed
  }

  lemma ScanOne(ms: Machines, w: Weather, order: seq<ShardId>, x: ShardId, ids: seq<TxId>, t: TxId, done: Settled,
                more: Settled)
    requires Scanned(ms, w, order, x, ids, done, more) && Stuck(ms, x, t) && (forall u :: (x, u) !in done) && t !in ids
    ensures (x, t) !in more
    ensures Scanned(ms, w, order, x, ids + [t], done,
                    if Settles(ms, w, x, t) then more[(x, t) := Answer(ms, w, order + [x], x, t)] else more)
  {
    hide Settles, Answer;
  }

  lemma ScanCount(ms: Machines, w: Weather, x: ShardId, ids: seq<TxId>, t: TxId, counted: set<(ShardId, TxId)>,
                  now: set<(ShardId, TxId)>)
    requires ScanCounted(ms, w, x, ids, counted, now) && (forall u :: (x, u) !in counted) && t !in ids && Stuck(ms, x, t)
    ensures (x, t) !in now
    ensures ScanCounted(ms, w, x, ids + [t], counted, if Counted(ms, w, x, t) then now + {(x, t)} else now)
    ensures Free(ms, w, x, ids + [t]) <==>
      Free(ms, w, x, ids) && Reachable(ms, w, x, t) && Reply(w, x, t).sight != Failed
  {
    hide Counted, Reachable;
    if Free(ms, w, x, ids + [t]) {
      assert t in ids + [t];
      assert forall u :: u in ids ==> u in ids + [t];
    }
  }

  /** A finished scan, or one that never started, in the group's own terms. */
  lemma ScanGroup(ms: Machines, w: Weather, order: seq<ShardId>, x: ShardId, ids: seq<TxId>, done: Settled,
                  more: Settled)
    requires x in ms && x !in order && Visited(ms, w, order, done)
    requires
      if x in w.led && x !in w.behind
      then Scanned(ms, w, order, x, ids, done, more) && (forall t :: t in ids <==> Stuck(ms, x, t)) else more == done
    ensures Visited(ms, w, order + [x], more)
  {
    hide Reachable, Commits;
    forall y, t | (y, t) in more && Stuck(ms, y, t)
      ensures more[(y, t)] == Answer(ms, w, order + [x], y, t)
    {
      if (y, t) in done {
        BeforeStays(order, x, y);
      }
    }
  }

  lemma CountGroup(ms: Machines, w: Weather, order: seq<ShardId>, x: ShardId, ids: seq<TxId>,
                   counted: set<(ShardId, TxId)>, now: set<(ShardId, TxId)>)
    requires x in ms && x !in order && AllCounted(ms, w, order, counted)
    requires
      if x in w.led && x !in w.behind
      then ScanCounted(ms, w, x, ids, counted, now) && (forall t :: t in ids <==> Stuck(ms, x, t)) else now == counted
    ensures AllCounted(ms, w, order + [x], now)
    ensures if x !in w.led then Clear(ms, w, x) else if x in w.behind then !Clear(ms, w, x) else Clear(ms, w, x) <==> Free(ms, w, x, ids)
  {
    hide Reachable;
  }

  lemma ClearGroup(ms: Machines, w: Weather, order: seq<ShardId>, x: ShardId)
    ensures AllClear(ms, w, set y | y in order + [x]) <==> AllClear(ms, w, set y | y in order) && Clear(ms, w, x)
  {
    hide Clear;
    assert (set y | y in order + [x]) == (set y | y in order) + {x};
  }

  // ----- when the order matters -----

  /** Every lagging replica already shows what its group stands for on the transactions that are stuck. */
  ghost predicate FreshViews(ms: Machines, w: Weather) {
    forall x, t :: Stuck(ms, x, t) && CoordinatorOf(ms[x].txs[t]) in w.shown ==>
      (Decision(w.shown[CoordinatorOf(ms[x].txs[t])], t) == Some(true) <==> Commits(ms, x, t))
  }

  lemma FreshAnswer(ms: Machines, w: Weather, order: seq<ShardId>, x: ShardId, t: TxId)
    requires FreshViews(ms, w) && Stuck(ms, x, t)
    ensures Answer(ms, w, order, x, t) == Commits(ms, x, t)
  {
    hide Decision, Commits, Before;
  }

  /** Then two passes in any two orders settle the same records and leave every record of every shard the same. */
  lemma OrderIrrelevant(ms: Machines, w: Weather, now: Machines, done: Settled, order: seq<ShardId>, other: Machines,
                        done': Settled, order': seq<ShardId>)
    requires FreshViews(ms, w) && (forall x :: x in order <==> x in order')
    requires Progress(ms, now, done) && Visited(ms, w, order, done) && Progress(ms, other, done')
      && Visited(ms, w, order', done')
    ensures done == done' && forall x, t :: x in ms ==> x in now && x in other && RecordOf(now[x], t) == RecordOf(other[x], t)
  {
    hide MachinesOk, Settles, Answer, Commits, FreshViews;
    forall k | k in done
      ensures k in done' && done[k] == done'[k]
    {
      assert k == (k.0, k.1) && Stuck(ms, k.0, k.1);
      FreshAnswer(ms, w, order, k.0, k.1);
      FreshAnswer(ms, w, order', k.0, k.1);
    }
    forall k | k in done'
      ensures k in done
    {
      assert k == (k.0, k.1);
    }
    assert done == done';
    forall x, t | x in ms
      ensures x in now && x in other && RecordOf(now[x], t) == RecordOf(other[x], t)
    {
      assert RecordAt(ms, now, done, x, t) && RecordAt(ms, other, done', x, t);
    }
  }

  /**
   And otherwise it matters: a record settled from a lagging view comes out one way if its group is visited first
   and the other way if the coordinator's is.
   */
  lemma OrderMatters(ms: Machines, w: Weather, x: ShardId, t: TxId, now: Machines, done: Settled, order: seq<ShardId>,
                     other: Machines, done': Settled, order': seq<ShardId>)
    requires Settles(ms, w, x, t) && CoordinatorOf(ms[x].txs[t]) in w.shown
    requires (Decision(w.shown[CoordinatorOf(ms[x].txs[t])], t) == Some(true)) != Commits(ms, x, t)
    requires CoordinatorOf(ms[x].txs[t]) != x && CoordinatorOf(ms[x].txs[t]) in w.led
      && CoordinatorOf(ms[x].txs[t]) !in w.behind
    requires x in order && CoordinatorOf(ms[x].txs[t]) !in Before(order, x)
    requires x in order' && CoordinatorOf(ms[x].txs[t]) in Before(order', x)
    requires Progress(ms, now, done) && Visited(ms, w, order, done) && Progress(ms, other, done')
      && Visited(ms, w, order', done')
    ensures x in now && x in other && RecordOf(now[x], t) != RecordOf(other[x], t)
  {
    hide MachinesOk, Decision, Commits, Before;
    assert (x, t) in done && (x, t) in done';
    assert RecordAt(ms, now, done, x, t) && RecordAt(ms, other, done', x, t);
  }

  // ----- what a report means -----

  /** In fair weather, with every coordinator known, nothing stays prepared. */
  lemma PassSettlesAll(ms: Machines, w: Weather, now: Machines, done: Settled, order: seq<ShardId>)
    requires Progress(ms, now, done) && Visited(ms, w, order, done) && (forall x :: x in ms ==> x in order)
    requires ms.Keys <= w.led && w.behind == {} && w.silent == {} && w.replies == map[]
    requires forall x, t :: Stuck(ms, x, t) ==> CoordinatorOf(ms[x].txs[t]) != [] && CoordinatorOf(ms[x].txs[t]) in ms
    ensures AllClear(ms, w, ms.Keys) && (forall x, t :: !Stuck(now, x, t))
  {
    hide MachinesOk, Answer;
    forall x, t
      ensures !Stuck(now, x, t)
    {
      if x in ms {
        assert RecordAt(ms, now, done, x, t);
        assert Stuck(ms, x, t) ==> Settles(ms, w, x, t);
      }
    }
  }

  /**
   A pass over groups it leads that reports no error has settled everything there, if and only if no proposal met a
   group it had just ceased to lead: that is neither an error nor an outcome.
   */
  lemma NilMeansSettled(ms: Machines, w: Weather, now: Machines, done: Settled, order: seq<ShardId>)
    requires Progress(ms, now, done) && Visited(ms, w, order, done) && AllClear(ms, w, set y | y in order)
    requires forall k :: k in w.replies ==> Possible(w.replies[k])
    ensures (forall x, t :: x in order && x in w.led ==> !Stuck(now, x, t)) <==>
      forall x, t :: x in order && Tried(ms, w, x, t) ==> Reply(w, x, t).sight != NotLeader
  {
    hide MachinesOk, Answer, Reachable;
    forall x, t | x in order && x in w.led && x in ms
      ensures RecordAt(ms, now, done, x, t) && Clear(ms, w, x)
      ensures Stuck(now, x, t) <==> Tried(ms, w, x, t) && Reply(w, x, t).sight == NotLeader
    {
      assert RecordAt(ms, now, done, x, t) && x in set y | y in order;
      assert Clear(ms, w, x);
    }
    StuckWithin(ms, now, done);
  }

  lemma StuckWithin(ms: Machines, now: Machines, done: Settled)
    requires Progress(ms, now, done)
    ensures forall x, t :: Stuck(now, x, t) ==> x in ms && Stuck(ms, x, t)
  {
    hide MachinesOk;
    forall x, t | Stuck(now, x, t)
      ensures x in ms && Stuck(ms, x, t)
    {
      assert RecordAt(ms, now, done, x, t);
    }
  }

  /** Every state of every run is fit for recovery. */
  lemma RunsRecoverable(s: System)
    requires SystemOk(s) && [] !in s.machines
    ensures OneCoordinator(s.machines)
    ensures forall x, t :: Stuck(s.machines, x, t) ==>
      CoordinatorOf(s.machines[x].txs[t]) != [] && CoordinatorOf(s.machines[x].txs[t]) in s.machines
  {
    forall x, t | Stuck(s.machines, x, t)
      ensures t in s.jobs && CoordinatorOf(s.machines[x].txs[t]) == s.jobs[t].plan.from
        && s.jobs[t].plan.from in s.machines
    {
      CoordinatorIsDebit(s, x, t);
    }
  }

  lemma CoordinatorIsDebit(s: System, x: ShardId, t: TxId)
    requires SystemOk(s) && Stuck(s.machines, x, t)
    ensures t in s.jobs && CoordinatorOf(s.machines[x].txs[t]) == s.jobs[t].plan.from
      && s.jobs[t].plan.from in s.machines
  {
    hide MachinesOk, LateMessageOk;
    assert Placed(s, x, t) && JobOk(s, t, true);
  }
}
