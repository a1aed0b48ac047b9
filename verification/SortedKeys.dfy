/**
 Keys in byte order: the one sequence a set of keys sorts to, and the loop that gets there from any
 iteration order of a Go map.
 */
module SortedKeys {
  import opened Bytes

  /** Go's string order: bytewise, a prefix first. */
  predicate Leq(a: Str, b: Str) {
    a == [] || (b != [] && (a[0] < b[0] || (a[0] == b[0] && Leq(a[1..], b[1..]))))
  }

  predicate Less(a: Str, b: Str) { Leq(a, b) && a != b }

  lemma {:induction false} LeqTotal(a: Str, b: Str)
    ensures Leq(a, b) || Leq(b, a)
    ensures Leq(a, b) && Leq(b, a) ==> a == b
    ensures Leq(a, a)
  {
    if a != [] && b != [] && a[0] == b[0] {
      LeqTotal(a[1..], b[1..]);
      assert a == [a[0]] + a[1..] && b == [b[0]] + b[1..];
    }
    if a != [] {
      LeqTotal(a[1..], a[1..]);
    }
  }

  lemma {:induction false} LeqTransitive(a: Str, b: Str, c: Str)
    requires Leq(a, b) && Leq(b, c)
    ensures Leq(a, c)
  {
    if a != [] && a[0] == b[0] == c[0] {
      LeqTransitive(a[1..], b[1..], c[1..]);
    }
  }

  ghost predicate Sorted(keys: seq<Str>) {
    forall i, j :: 0 <= i < j < |keys| ==> Less(keys[i], keys[j])
  }

  ghost function Elements(keys: seq<Str>): set<Str> { set k | k in keys }

  /** A set of keys sorts to one sequence only. */
  lemma {:induction false} SortedUnique(a: seq<Str>, b: seq<Str>)
    requires Sorted(a) && Sorted(b) && Elements(a) == Elements(b)
    ensures a == b
    decreases |a|
  {
    assert b != [] ==> b[0] in Elements(b);
    if a != [] {
      assert a[0] in Elements(a) && a[0] in Elements(b);
      assert b[0] in Elements(b) && b[0] in Elements(a);
      LeqTotal(a[0], b[0]);
      assert a[0] == b[0];
      Rest(a);
      Rest(b);
      SortedUnique(a[1..], b[1..]);
      assert a == [a[0]] + a[1..] && b == [b[0]] + b[1..];
    }
  }

  lemma Rest(a: seq<Str>)
    requires Sorted(a) && a != []
    ensures Sorted(a[1..]) && Elements(a[1..]) == Elements(a) - {a[0]}
  {
    forall k | k in Elements(a) - {a[0]}
      ensures k in Elements(a[1..])
    {
      var i :| 0 <= i < |a| && a[i] == k;
      assert a[1..][i - 1] == k;
    }
  }

  ghost predicate SortsTo(s: set<Str>, keys: seq<Str>) { Sorted(keys) && Elements(keys) == s }

  /** Insertion at the place where order is kept. */
  method Insert(keys: seq<Str>, k: Str) returns (r: seq<Str>)
    requires Sorted(keys) && k !in keys
    ensures SortsTo(Elements(keys) + {k}, r)
  {
    var i := 0;
    while i < |keys| && Leq(keys[i], k)
      invariant 0 <= i <= |keys|
      invariant forall j :: 0 <= j < i ==> Less(keys[j], k)
    {
      i := i + 1;
    }
    forall j | i <= j < |keys|
      ensures Less(k, keys[j])
    {
      LeqTotal(keys[i], k);
      LeqTotal(keys[j], k);
      if j > i {
        LeqTransitive(k, keys[i], keys[j]);
      }
    }
    r := keys[..i] + [k] + keys[i..];
    Inserted(keys, k, i, r);
  }

  lemma Inserted(keys: seq<Str>, k: Str, i: nat, r: seq<Str>)
    requires i <= |keys| && r == keys[..i] + [k] + keys[i..]
    ensures Elements(r) == Elements(keys) + {k}
  {
    forall x | x in Elements(keys)
      ensures x in r
    {
      var j :| 0 <= j < |keys| && keys[j] == x;
      assert r[if j < i then j else j + 1] == x;
    }
    assert r[i] == k;
  }

  /** The sorted keys of a map, however its entries are ranged over. */
  method Collect(s: set<Str>) returns (keys: seq<Str>)
    ensures SortsTo(s, keys)
  {
    keys := [];
    var todo := s;
    while todo != {}
      invariant todo <= s && SortsTo(s - todo, keys)
    {
      var k :| k in todo;
      assert k !in keys by { assert k !in Elements(keys); }
      keys := Insert(keys, k);
      assert s - todo + {k} == s - (todo - {k});
      todo := todo - {k};
    }
    assert s - todo == s;
  }

  ghost function Keys(s: set<Str>): (keys: seq<Str>)
    ensures SortsTo(s, keys)
  {
    Sortable(s);
    var keys :| SortsTo(s, keys);
    keys
  }

  lemma {:induction false} Sortable(s: set<Str>)
    ensures exists keys :: SortsTo(s, keys)
    decreases |s|
  {
    if s == {} {
      assert SortsTo(s, []);
    } else {
      var m := Least(s);
      Sortable(s - {m});
      var rest :| SortsTo(s - {m}, rest);
      assert SortsTo(s, [m] + rest) by { Prepend(s, m, rest); }
    }
  }

  lemma Prepend(s: set<Str>, m: Str, rest: seq<Str>)
    requires m in s && SortsTo(s - {m}, rest) && forall x :: x in s ==> Leq(m, x)
    ensures SortsTo(s, [m] + rest)
  {
    var r := [m] + rest;
    forall i | 0 <= i < |rest|
      ensures Less(m, rest[i])
    {
      assert rest[i] in Elements(rest);
    }
    forall x
      ensures x in Elements(r) <==> x in s
    {
      assert x in Elements(rest) <==> x in s - {m};
      assert x in r <==> x == m || x in rest;
    }
  }

  lemma {:induction false} Least(s: set<Str>) returns (m: Str)
    requires s != {}
    ensures m in s && forall x :: x in s ==> Leq(m, x)
    decreases |s|
  {
    var k :| k in s;
    LeqTotal(k, k);
    if s == {k} {
      m := k;
    } else {
      assert s - {k} != {};
      var n := Least(s - {k});
      LeqTotal(k, n);
      if Leq(n, k) {
        m := n;
      } else {
        m := k;
        forall x | x in s - {k}
          ensures Leq(k, x)
        {
          LeqTransitive(k, n, x);
        }
      }
    }
  }

  lemma KeysAre(s: set<Str>, keys: seq<Str>)
    requires SortsTo(s, keys)
    ensures keys == Keys(s) && |keys| == |s|
  {
    SortedUnique(keys, Keys(s));
    Sizes(keys);
  }

  lemma {:induction false} Sizes(keys: seq<Str>)
    requires Sorted(keys)
    ensures |Elements(keys)| == |keys|
    decreases |keys|
  {
    if keys != [] {
      Rest(keys);
      Sizes(keys[1..]);
      assert keys[0] in Elements(keys);
    }
  }
}
