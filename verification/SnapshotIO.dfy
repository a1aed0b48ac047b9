/**
 The byte buffer writer and the cursor reader of the snapshot code: the reader latches its first error
 and returns zero values from then on.
 */
module SnapshotIO {
  import opened Bytes
  import opened Parsing
  import opened SortedKeys
  import opened LedgerSnapshot

  class Reader {
    const buf: Str
    var pos: nat
    var err: bool

    constructor (buf: Str)
      ensures Valid() && this.buf == buf && Left() == Some(buf) && fresh(this)
    {
      this.buf, pos, err := buf, 0, false;
    }

    ghost predicate Valid()
      reads this
    {
      pos <= |buf|
    }

    /** The unread bytes, or None once an error is latched. */
    ghost function Left(): Option<Str>
      requires Valid()
      reads this
    {
      if err then None else Some(buf[pos..])
    }

    method U64() returns (v: U64)
      requires Valid()
      modifies this`pos, this`err
      ensures Valid() && Took(old(Left()), GetU64, v, 0, Left())
    {
      v := 0;
      if err {
        return;
      }
      if pos + 8 > |buf| {
        err := true;
        return;
      }
      assert buf[pos..][..8] == buf[pos..pos + 8] && buf[pos..][8..] == buf[pos + 8..];
      v := LittleValue(buf[pos..pos + 8]) % TWO_64;
      pos := pos + 8;
    }

    method I64() returns (v: I64)
      requires Valid()
      modifies this`pos, this`err
      ensures Valid() && Took(old(Left()), GetI64, v, 0, Left())
    {
      hide GetU64, Wrap;
      var u := U64();
      v := Wrap(u);
    }

    /** n bytes, if that many are present. */
    method Blob(n: nat) returns (s: Str)
      requires Valid()
      modifies this`pos, this`err
      ensures Valid() && Took(old(Left()), d => GetBlob(d, n), s, [], Left())
    {
      s := [];
      if err {
        return;
      }
      if |buf| - pos < n {
        err := true;
        return;
      }
      assert buf[pos..][..n] == buf[pos..pos + n] && buf[pos..][n..] == buf[pos + n..];
      s := buf[pos..pos + n];
      pos := pos + n;
    }

    method String() returns (s: Str)
      requires Valid()
      modifies this`pos, this`err
      ensures Valid() && Took(old(Left()), GetStr, s, [], Left())
    {
      hide GetU64, GetBlob;
      var n := U64();
      s := Blob(n);
    }

    method Bool() returns (b: bool)
      requires Valid()
      modifies this`pos, this`err
      ensures Valid() && Took(old(Left()), GetBool, b, false, Left())
    {
      b := false;
      if err {
        return;
      }
      if pos >= |buf| {
        err := true;
        return;
      }
      b := buf[pos] == 1;
      assert buf[pos..][1..] == buf[pos + 1..];
      pos := pos + 1;
    }
  }

  /** One read: the parser's value and rest, or a latched error and the zero value. */
  ghost predicate Took<T(!new)>(was: Option<Str>, p: Str -> Option<(T, Str)>, v: T, zero: T, now: Option<Str>) {
    if was.Some? && p(was.value).Some? then v == p(was.value).value.0 && now == Some(p(was.value).value.1)
    else v == zero && now == None
  }

  /** A compound read, whose value is not looked at once an error is latched. */
  ghost predicate Parsed<T(!new)>(was: Option<Str>, p: Str -> Option<(T, Str)>, v: T, now: Option<Str>) {
    if was.Some? && p(was.value).Some? then v == p(was.value).value.0 && now == Some(p(was.value).value.1)
    else now == None
  }

  /** What a counted loop still has to read, n items before its end, with acc gathered so far. */
  ghost function Remaining<A, T>(left: Option<Str>, n: nat, item: Str -> Option<(T, Str)>, acc: A, add: (A, T) -> A): Option<(A, Str)> {
    if left.Some? then GetMany(n, left.value, item, acc, add) else None
  }

  // ----- writing maps -----

  /** A counted section: the items one after another. */
  method WriteAll<T>(items: seq<T>, put: T -> Str) returns (b: Str)
    ensures b == PutU64(|items|) + Concat(items, put)
  {
    hide PutU64;
    b := PutU64(|items|);
    for i := 0 to |items|
      invariant b == PutU64(|items|) + Concat(items[..i], put)
    {
      assert items[..i + 1] == items[..i] + [items[i]];
      ConcatSnoc(items[..i], items[i], put);
      b := b + put(items[i]);
    }
    assert items[..|items|] == items;
  }

  /** A map section comes out the same whatever order its keys are collected in. */
  method WriteMap<V>(m: map<Str, V>, put: ((Str, V)) -> Str) returns (b: Str)
    ensures b == PutMap(m, put)
  {
    hide PutU64, Concat;
    var keys := Collect(m.Keys);
    KeysAre(m.Keys, keys);
    assert forall k :: k in keys ==> k in Elements(keys);
    b := WriteAll(Pairs(m, keys), put);
  }
}
