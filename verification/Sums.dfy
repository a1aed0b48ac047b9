/**
 Finite sums over sets, independent of the order in which a Go map is ranged over.
 */
module Sums {

  ghost function Sum<K(!new)>(s: set<K>, f: K -> int): int {
    if s == {} then 0 else
      var k :| k in s;
      f(k) + Sum(s - {k}, f)
  }

  /** Any element may be taken first. */
  lemma {:induction false} SumTake<K(!new)>(s: set<K>, f: K -> int, k: K)
    requires k in s
    ensures Sum(s, f) == f(k) + Sum(s - {k}, f)
    decreases |s|
  {
    var j :| j in s && Sum(s, f) == f(j) + Sum(s - {j}, f);
    if j != k {
      SumTake(s - {j}, f, k);
      SumTake(s - {k}, f, j);
      assert s - {j} - {k} == s - {k} - {j};
    }
  }

  lemma SumPut<K(!new)>(s: set<K>, f: K -> int, k: K)
    requires k !in s
    ensures Sum(s + {k}, f) == f(k) + Sum(s, f)
  {
    SumTake(s + {k}, f, k);
    assert s + {k} - {k} == s;
  }

  /** One round of a loop that has todo still to visit. */
  lemma SumDone<K(!new)>(all: set<K>, todo: set<K>, f: K -> int, k: K)
    requires k in todo && todo <= all
    ensures Sum(all - (todo - {k}), f) == Sum(all - todo, f) + f(k)
  {
    SumPut(all - todo, f, k);
    assert all - (todo - {k}) == all - todo + {k};
  }

  lemma {:induction false} SumSame<K(!new)>(s: set<K>, f: K -> int, g: K -> int)
    requires forall k :: k in s ==> f(k) == g(k)
    ensures Sum(s, f) == Sum(s, g)
    decreases |s|
  {
    if s != {} {
      var k :| k in s;
      SumTake(s, f, k);
      SumTake(s, g, k);
      SumSame(s - {k}, f, g);
    }
  }

  /** Functions that differ at one element only. */
  lemma SumChange<K(!new)>(s: set<K>, f: K -> int, g: K -> int, k: K)
    requires k in s && forall j :: j in s && j != k ==> f(j) == g(j)
    ensures Sum(s, g) == Sum(s, f) + g(k) - f(k)
  {
    SumTake(s, f, k);
    SumTake(s, g, k);
    SumSame(s - {k}, f, g);
  }

  lemma {:induction false} SumBounds<K(!new)>(s: set<K>, f: K -> int)
    requires forall k :: k in s ==> f(k) >= 0
    ensures Sum(s, f) >= 0 && forall k :: k in s ==> f(k) <= Sum(s, f)
    decreases |s|
  {
    if s != {} {
      forall k | k in s
        ensures 0 <= f(k) <= Sum(s, f)
      {
        SumTake(s, f, k);
        SumBounds(s - {k}, f);
      }
    }
  }

  lemma {:induction false} SumZero<K(!new)>(s: set<K>, f: K -> int)
    requires forall k :: k in s ==> f(k) == 0
    ensures Sum(s, f) == 0
    decreases |s|
  {
    if s != {} {
      var k :| k in s;
      SumTake(s, f, k);
      SumZero(s - {k}, f);
    }
  }
}
