/**
 Exactly once per idempotency key: what retries, reused keys and internal keys can and cannot do.
 */
module LedgerOnce {
  import opened Bytes
  import opened Ledger
  import opened LedgerInvariant

  /** No operation ever changes a recorded result or the fingerprint of a recorded key. */
  ghost predicate Remembers(l: Ledger, l': Ledger, key: Str) {
    key in l.applied ==> key in l'.applied && l'.applied[key] == l.applied[key] && Digest(l', key) == Digest(l, key)
  }

  lemma TakeRemembers(hash: Str -> nat, l: Ledger, s: Step, key: Str)
    ensures Remembers(l, Take(hash, l, s).0, key)
  {
    hide Execute, Available, Overflows, Wrap, CreditKey, HasPrefix;
    if s.Submit? {
      ExecuteShape(l, s.command);
    }
  }

  lemma {:induction false} TakeAllRemembers(hash: Str -> nat, l: Ledger, steps: seq<Step>, key: Str)
    ensures Remembers(l, TakeAll(hash, l, steps), key)
    decreases |steps|
  {
    hide Take;
    if steps != [] {
      var n := |steps| - 1;
      TakeAllRemembers(hash, l, steps[..n], key);
      TakeRemembers(hash, TakeAll(hash, l, steps[..n]), steps[n], key);
    }
  }

  /**
   After any intervening operations, a retry with the same fingerprint returns the original result and
   changes nothing; the same key with another fingerprint is refused and changes nothing.
   */
  lemma ExactlyOnce(hash: Str -> nat, l: Ledger, c: Command, steps: seq<Step>, retry: Command)
    requires ClientKey(c.key) && c.key !in l.applied && retry.key == c.key
    ensures
      var (l1, first) := Apply(hash, l, c);
      var l2 := TakeAll(hash, l1, steps);
      Apply(hash, l2, retry) == (l2, if hash(Request(retry)) == hash(Request(c)) then first else Refused(ERR_CONFLICT))
  {
    hide Execute, HasPrefix, Request, TakeAll;
    var (l1, first) := Apply(hash, l, c);
    TakeAllRemembers(hash, l1, steps, c.key);
  }

  /** The fingerprint ignores the key and the timestamp. */
  lemma RetryKeepsRequest(c: Command, key: Str, ts: Timestamp)
    ensures Request(c.(key := key, ts := ts)) == Request(c)
  {
  }

  /** Exactly which commands are the same request to the fingerprint. */
  lemma RequestSame(c: Command, d: Command)
    ensures Request(c) == Request(d) <==>
      c.op == d.op && c.amount == d.amount && c.from + [0] + c.to == d.from + [0] + d.to
  {
    hide LittleEndian;
    var x, y := c.amount % TWO_64, d.amount % TWO_64;
    RequestBytes(c, d);
    if LittleEndian(x, 8) == LittleEndian(y, 8) {
      Pow256Words();
      LittleRoundTrip(x, 8);
      LittleRoundTrip(y, 8);
    }
  }

  lemma RequestBytes(c: Command, d: Command)
    ensures Request(c) == Request(d) <==>
      c.op == d.op && LittleEndian(c.amount % TWO_64, 8) == LittleEndian(d.amount % TWO_64, 8)
      && c.from + [0] + c.to == d.from + [0] + d.to
  {
    hide LittleEndian;
    var p, q := c.from + [0] + c.to, d.from + [0] + d.to;
    var u, v := LittleEndian(c.amount % TWO_64, 8), LittleEndian(d.amount % TWO_64, 8);
    var r, s := Request(c), Request(d);
    assert r == [c.op] + p + [0] + u && s == [d.op] + q + [0] + v;
    assert r[0] == c.op && s[0] == d.op && r[1..|r| - 9] == p && s[1..|s| - 9] == q && r[|r| - 8..] == u
      && s[|s| - 8..] == v;
  }

  ghost predicate NulFree(s: Str) { 0 !in s }

  lemma NulSplit(a: Str, b: Str, c: Str, d: Str)
    requires NulFree(a) && NulFree(c)
    ensures a + [0] + b == c + [0] + d <==> a == c && b == d
  {
    var p, q := a + [0] + b, c + [0] + d;
    assert p[|a|] == 0 && q[|c|] == 0;
    assert |a| < |c| ==> q[|a|] == c[|a|] && c[|a|] in c;
    assert |c| < |a| ==> p[|c|] == a[|c|] && a[|c|] in a;
    assert a == p[..|a|] && b == p[|a| + 1..] && c == q[..|c|] && d == q[|c| + 1..];
  }

  /** For account ids without a NUL byte the fingerprint sees every field that matters. */
  lemma RequestDistinct(c: Command, d: Command)
    requires NulFree(c.from) && NulFree(d.from)
    ensures Request(c) == Request(d) <==> c.op == d.op && c.from == d.from && c.to == d.to && c.amount == d.amount
  {
    hide Request;
    RequestSame(c, d);
    NulSplit(c.from, c.to, d.from, d.to);
  }

  /** With NUL bytes two different transfers are one request, whatever the hash. */
  lemma RequestCollides(c: Command)
    ensures
      var d := c.(from := [97, 0, 98], to := [99]);
      var e := c.(from := [97], to := [98, 0, 99]);
      d.from != e.from && d.to != e.to && Request(d) == Request(e)
  {
    hide Request;
    var d := c.(from := [97, 0, 98], to := [99]);
    var e := c.(from := [97], to := [98, 0, 99]);
    RequestSame(d, e);
    assert d.from + [0] + d.to == [97, 0, 98, 0, 99] == e.from + [0] + e.to;
  }

  /** Over any run, each client key yields at most one transaction in the history. */
  lemma ClientKeyOnce(hash: Str -> nat, steps: seq<Step>, i: nat, j: nat)
    requires
      var h := TakeAll(hash, EMPTY, steps).history;
      i < |h| && j < |h| && h[i].key == h[j].key && ClientKey(h[i].key)
    ensures i == j
  {
    hide HasPrefix, TakeAll, Covered, Audited, DebitLike;
    RunsOk(hash, steps);
    ClientNotDebit(TakeAll(hash, EMPTY, steps).history[i].key);
  }

  // ----- internal keys -----

  lemma TakeNotPreempted(hash: Str -> nat, l: Ledger, s: Step, tx: TxId)
    requires CreditKey(tx) !in l.applied && !(s.SettleCredit? && s.tx == tx)
    ensures CreditKey(tx) !in Take(hash, l, s).0.applied
  {
    hide Execute, Available, Overflows, Wrap, CreditKey, HasPrefix;
    match s
    case Submit(c) =>
      ExecuteShape(l, c);
      KeyShapes(tx, tx);
    case SettleCredit(other, _, _, _) =>
      KeyShapes(tx, other);
    case _ =>
  }

  /**
   No sequence of client commands and of steps of other transactions makes the credit of tx look done:
   when CommitCredit arrives it posts, unless the account is missing or would overflow.
   */
  lemma {:induction false} CreditNotPreempted(hash: Str -> nat, l: Ledger, steps: seq<Step>, tx: TxId)
    requires CreditKey(tx) !in l.applied && forall i :: 0 <= i < |steps| ==> !(steps[i].SettleCredit? && steps[i].tx == tx)
    ensures CreditKey(tx) !in TakeAll(hash, l, steps).applied
    ensures forall a, amount, ts ::
      var now := TakeAll(hash, l, steps);
      a in now.balances && !Overflows(now, a, amount) ==>
        |CommitCredit(now, tx, a, amount, ts).0.history| == |now.history| + 1
    decreases |steps|
  {
    hide Take, CreditKey, Overflows;
    if steps != [] {
      var n := |steps| - 1;
      CreditNotPreempted(hash, l, steps[..n], tx);
      TakeNotPreempted(hash, TakeAll(hash, l, steps[..n]), steps[n], tx);
    }
  }
}
