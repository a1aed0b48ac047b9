/**
 Reading fixed-width little-endian records: parsers over the unread bytes, and the two facts about them
 that round trips and the refusal of truncated input rest on.
 */
module Parsing {
  import opened Bytes

  // ----- fields -----

  function PutU64(v: nat): Str { LittleEndian(v, 8) }

  function PutStr(s: Str): Str { PutU64(|s|) + s }

  function PutBool(b: bool): Str { [if b then 1 else 0] }

  /** A signed amount travels as its two's complement. */
  function PutI64(v: I64): Str { PutU64(v % TWO_64) }

  function GetU64(d: Str): Option<(U64, Str)> {
    if |d| < 8 then None else Some((LittleValue(d[..8]) % TWO_64, d[8..]))
  }

  function GetBlob(d: Str, n: nat): Option<(Str, Str)> {
    if |d| < n then None else Some((d[..n], d[n..]))
  }

  function GetStr(d: Str): Option<(Str, Str)> {
    var (n, d1) :- GetU64(d);
    GetBlob(d1, n)
  }

  function GetBool(d: Str): Option<(bool, Str)> {
    if |d| < 1 then None else Some((d[0] == 1, d[1..]))
  }

  function GetI64(d: Str): Option<(I64, Str)> {
    var (v, d1) :- GetU64(d);
    Some((Wrap(v), d1))
  }

  /** A counted sequence, folded into acc from left to right as the source's loops do. */
  function GetMany<A, T>(n: nat, d: Str, item: Str -> Option<(T, Str)>, acc: A, add: (A, T) -> A): Option<(A, Str)>
    decreases n
  {
    if n == 0 then Some((acc, d))
    else
      var (x, d1) :- item(d);
      GetMany(n - 1, d1, item, add(acc, x), add)
  }

  // ----- extension: more input never changes what was read -----

  ghost predicate Steady<T(!new)>(p: Str -> Option<(T, Str)>) {
    forall d: Str, q: Str :: p(d).Some? ==> p(d + q) == Some((p(d).value.0, p(d).value.1 + q))
  }

  lemma GetU64Steady()
    ensures Steady(GetU64)
  {
    forall d: Str, q: Str | GetU64(d).Some?
      ensures GetU64(d + q) == Some((GetU64(d).value.0, GetU64(d).value.1 + q))
    {
      assert (d + q)[..8] == d[..8] && (d + q)[8..] == d[8..] + q;
    }
  }

  lemma GetBlobSteady(d: Str, q: Str, n: nat)
    requires GetBlob(d, n).Some?
    ensures GetBlob(d + q, n) == Some((GetBlob(d, n).value.0, GetBlob(d, n).value.1 + q))
  {
    assert (d + q)[..n] == d[..n] && (d + q)[n..] == d[n..] + q;
  }

  lemma GetStrSteady()
    ensures Steady(GetStr)
  {
    hide GetU64, GetBlob;
    GetU64Steady();
    forall d: Str, q: Str | GetStr(d).Some?
      ensures GetStr(d + q) == Some((GetStr(d).value.0, GetStr(d).value.1 + q))
    {
      var (n, d1) := GetU64(d).value;
      GetBlobSteady(d1, q, n);
    }
  }

  lemma GetBoolSteady()
    ensures Steady(GetBool)
  {
    forall d: Str, q: Str | GetBool(d).Some?
      ensures GetBool(d + q) == Some((GetBool(d).value.0, GetBool(d).value.1 + q))
    {
      assert (d + q)[1..] == d[1..] + q;
    }
  }

  lemma GetI64Steady()
    ensures Steady(GetI64)
  {
    hide GetU64, Wrap;
    GetU64Steady();
  }

  lemma {:induction false} GetManySteady<A, T(!new)>(n: nat, d: Str, q: Str, item: Str -> Option<(T, Str)>, acc: A, add: (A, T) -> A)
    requires Steady(item) && GetMany(n, d, item, acc, add).Some?
    ensures
      var r := GetMany(n, d, item, acc, add).value;
      GetMany(n, d + q, item, acc, add) == Some((r.0, r.1 + q))
    decreases n
  {
    if n > 0 {
      var (x, d1) := item(d).value;
      GetManySteady(n - 1, d1, q, item, add(acc, x), add);
    }
  }

  // ----- round trips -----

  /** Whatever follows, the parser reads back exactly x. */
  ghost predicate Reads<T(!new)>(p: Str -> Option<(T, Str)>, bytes: Str, x: T) {
    forall rest: Str :: p(bytes + rest) == Some((x, rest))
  }

  lemma U64Reads(v: U64)
    ensures Reads(GetU64, PutU64(v), v)
  {
    hide LittleValue, LittleEndian;
    Pow256Words();
    LittleRoundTrip(v, 8);
    forall rest: Str
      ensures GetU64(PutU64(v) + rest) == Some((v, rest))
    {
      assert (PutU64(v) + rest)[..8] == PutU64(v) && (PutU64(v) + rest)[8..] == rest;
    }
  }

  lemma U64Then(v: U64, rest: Str)
    ensures GetU64(PutU64(v) + rest) == Some((v, rest))
  {
    U64Reads(v);
  }

  lemma StrReads(s: Str)
    requires |s| < TWO_64
    ensures Reads(GetStr, PutStr(s), s)
  {
    hide GetU64, LittleEndian;
    U64Reads(|s|);
    forall rest: Str
      ensures GetStr(PutStr(s) + rest) == Some((s, rest))
    {
      assert PutStr(s) + rest == PutU64(|s|) + (s + rest);
      assert (s + rest)[..|s|] == s && (s + rest)[|s|..] == rest;
    }
  }

  lemma BoolReads(b: bool)
    ensures Reads(GetBool, PutBool(b), b)
  {
    forall rest: Str
      ensures GetBool(PutBool(b) + rest) == Some((b, rest))
    {
      assert (PutBool(b) + rest)[1..] == rest;
    }
  }

  lemma I64Reads(v: I64)
    ensures Reads(GetI64, PutI64(v), v)
  {
    hide GetU64, LittleEndian;
    U64Reads(v % TWO_64);
    assert Wrap(v % TWO_64) == v;
  }

  function Concat<T>(items: seq<T>, put: T -> Str): Str {
    if items == [] then [] else put(items[0]) + Concat(items[1..], put)
  }

  function FoldLeft<A, T>(acc: A, items: seq<T>, add: (A, T) -> A): A {
    if items == [] then acc else FoldLeft(add(acc, items[0]), items[1..], add)
  }

  /** What the loops gather into a slice. */
  function AddLast<T>(xs: seq<T>, x: T): seq<T> { xs + [x] }

  lemma {:induction false} AddLastFold<T>(acc: seq<T>, xs: seq<T>)
    ensures FoldLeft(acc, xs, AddLast) == acc + xs
    decreases |xs|
  {
    if xs == [] {
      assert acc + xs == acc;
    } else {
      AddLastFold(acc + [xs[0]], xs[1..]);
      assert acc + [xs[0]] + xs[1..] == acc + xs;
    }
  }

  lemma {:induction false} ConcatSnoc<T>(items: seq<T>, x: T, put: T -> Str)
    ensures Concat(items + [x], put) == Concat(items, put) + put(x)
    decreases |items|
  {
    if items == [] {
      assert [x][1..] == [];
      assert Concat([x][1..], put) == [];
      assert items + [x] == [x];
    } else {
      assert (items + [x])[0] == items[0] && (items + [x])[1..] == items[1..] + [x];
      ConcatSnoc(items[1..], x, put);
    }
  }

  lemma {:induction false} ManyReads<A, T(!new)>(
    items: seq<T>, put: T -> Str, item: Str -> Option<(T, Str)>, acc: A, add: (A, T) -> A, rest: Str)
    requires forall i :: 0 <= i < |items| ==> Reads(item, put(items[i]), items[i])
    ensures GetMany(|items|, Concat(items, put) + rest, item, acc, add) == Some((FoldLeft(acc, items, add), rest))
    decreases |items|
  {
    if items == [] {
      assert Concat(items, put) + rest == rest;
    } else {
      var tail := Concat(items[1..], put) + rest;
      assert Concat(items, put) + rest == put(items[0]) + tail;
      assert Reads(item, put(items[0]), items[0]);
      ManyReads(items[1..], put, item, add(acc, items[0]), add, rest);
    }
  }

  /**
   A parser that reads an encoding exactly and does not change its mind on longer input refuses every
   strict prefix of that encoding.
   */
  lemma PrefixRefused<T(!new)>(p: Str -> Option<(T, Str)>, bytes: Str, x: T, cut: nat)
    requires Steady(p) && Reads(p, bytes, x) && cut < |bytes|
    ensures p(bytes[..cut]) == None
  {
    var d, q := bytes[..cut], bytes[cut..];
    assert p(d).Some? ==> |p(d).value.1 + q| > 0;
    assert d + q == bytes == bytes + [];
    assert p(bytes + []) == Some((x, []));
  }
}
