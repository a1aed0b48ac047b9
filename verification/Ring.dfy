/**
 The consistent-hash ring (shard/ring.go).  crc stands for CRC-32; the laws hold for any hash, those that
 compare two rings for hashes on which no two shards collide.
 */
module Ring {
  import opened Bytes
  import opened ShardMachine

  const SIZE := 0x1_0000_0000

  datatype Point = Point(hash: U32, shard: ShardId)

  datatype Segment = Segment(start: U32, end: U32, shard: ShardId)

  datatype Ring = Ring(points: seq<Point>, vnodes: nat, shards: seq<ShardId>)

  const DEFAULT_VNODES := 150

  // ----- clockwise -----

  /** How far clockwise from h the point lies. */
  function Distance(h: U32, p: Point): nat { (p.hash - h) % SIZE }

  /** p is the first point clockwise from h. */
  ghost predicate First(ps: seq<Point>, h: U32, p: Point) {
    p in ps && forall q :: q in ps ==> Distance(h, p) <= Distance(h, q)
  }

  ghost predicate Ordered(ps: seq<Point>) {
    forall i, j :: 0 <= i < j < |ps| ==> ps[i].hash <= ps[j].hash
  }

  /** No two shards have a point at the same place; two points of one shard may coincide. */
  ghost predicate CollisionFree(ps: seq<Point>) {
    forall p, q :: p in ps && q in ps && p.hash == q.hash ==> p == q
  }

  lemma DistanceCases(h: U32, p: Point)
    ensures Distance(h, p) == if p.hash >= h then p.hash - h else p.hash - h + SIZE
  {
  }

  /** The binary search of Lookup: the least index whose point is at or past h, or the end. */
  method Search(ps: seq<Point>, h: U32) returns (i: nat)
    requires Ordered(ps)
    ensures i <= |ps|
    ensures forall j :: 0 <= j < i ==> ps[j].hash < h
    ensures forall j :: i <= j < |ps| ==> ps[j].hash >= h
  {
    var lo, hi := 0, |ps|;
    while lo < hi
      invariant 0 <= lo <= hi <= |ps|
      invariant forall j :: 0 <= j < lo ==> ps[j].hash < h
      invariant forall j :: hi <= j < |ps| ==> ps[j].hash >= h
    {
      var mid := (lo + hi) / 2;
      if ps[mid].hash >= h {
        hi := mid;
      } else {
        lo := mid + 1;
      }
    }
    i := lo;
  }

  /** The points before the first at or past h. */
  function Slot(ps: seq<Point>, h: U32): (i: nat)
    ensures i <= |ps|
  {
    if ps == [] || ps[0].hash >= h then 0 else 1 + Slot(ps[1..], h)
  }

  lemma {:induction false} SlotIs(ps: seq<Point>, h: U32, i: nat)
    requires i <= |ps| && (forall j :: 0 <= j < i ==> ps[j].hash < h) && (i < |ps| ==> ps[i].hash >= h)
    ensures Slot(ps, h) == i
    decreases |ps|
  {
    if i > 0 {
      SlotIs(ps[1..], h, i - 1);
    }
  }

  lemma {:induction false} SlotBounds(ps: seq<Point>, h: U32)
    requires Ordered(ps)
    ensures (forall j :: 0 <= j < Slot(ps, h) ==> ps[j].hash < h) && (forall j :: Slot(ps, h) <= j < |ps| ==> ps[j].hash >= h)
    decreases |ps|
  {
    if ps != [] && ps[0].hash < h {
      SlotBounds(ps[1..], h);
      assert forall j :: 0 < j < |ps| ==> ps[j] == ps[1..][j - 1];
    }
  }

  /** Where Lookup finds the owner of h, wrapping past the end. */
  function OwnerAt(ps: seq<Point>, h: U32): (i: nat)
    requires ps != []
    ensures i < |ps|
  {
    if Slot(ps, h) == |ps| then 0 else Slot(ps, h)
  }

  /** The owner of a key is the shard of the first point clockwise from its hash, the earliest if several coincide. */
  lemma OwnerFirst(ps: seq<Point>, h: U32)
    requires Ordered(ps) && ps != []
    ensures First(ps, h, ps[OwnerAt(ps, h)]) && StartsRun(ps, OwnerAt(ps, h))
  {
    SlotBounds(ps, h);
    FirstIs(ps, h, Slot(ps, h));
  }

  /** An empty ring owns nothing. */
  method Lookup(r: Ring, crc: Str -> U32, key: Str) returns (shard: ShardId)
    requires Ordered(r.points)
    ensures r.points == [] ==> shard == []
    ensures r.points != [] ==> shard == r.points[OwnerAt(r.points, crc(key))].shard
  {
    if |r.points| == 0 {
      return [];
    }
    var h := crc(key);
    var i := Search(r.points, h);
    SlotIs(r.points, h, i);
    if i == |r.points| {
      i := 0;
    }
    shard := r.points[i].shard;
  }

  /** No point at the same place comes before it. */
  predicate StartsRun(ps: seq<Point>, i: nat)
    requires i < |ps|
  {
    i == 0 || ps[i - 1].hash < ps[i].hash
  }

  lemma FirstIs(ps: seq<Point>, h: U32, i: nat)
    requires Ordered(ps) && ps != [] && i <= |ps|
    requires (forall j :: 0 <= j < i ==> ps[j].hash < h) && (forall j :: i <= j < |ps| ==> ps[j].hash >= h)
    ensures First(ps, h, ps[if i == |ps| then 0 else i])
  {
    var k := if i == |ps| then 0 else i;
    forall q | q in ps
      ensures Distance(h, ps[k]) <= Distance(h, q)
    {
      var j :| 0 <= j < |ps| && ps[j] == q;
      DistanceCases(h, ps[k]);
      DistanceCases(h, q);
    }
  }

  // ----- adding and removing shards -----

  /** On a collision-free ring exactly one point comes first. */
  lemma FirstUnique(ps: seq<Point>, h: U32, p: Point, q: Point)
    requires CollisionFree(ps) && First(ps, h, p) && First(ps, h, q)
    ensures p == q
  {
    DistanceCases(h, p);
    DistanceCases(h, q);
  }

  /** small's points are those of large that do not belong to shard. */
  ghost predicate Without(large: seq<Point>, small: seq<Point>, shard: ShardId) {
    forall p :: p in small <==> p in large && p.shard != shard
  }

  /** Adding a shard moves a key only onto the new shard. */
  lemma AddMovesOnlyToNew(large: seq<Point>, small: seq<Point>, shard: ShardId, h: U32, p: Point, q: Point)
    requires CollisionFree(large) && Without(large, small, shard) && First(small, h, p) && First(large, h, q)
    ensures q.shard == p.shard || q.shard == shard
  {
    if q.shard != shard {
      assert First(small, h, q);
      FirstUnique(small, h, p, q);
    }
  }

  /** Removing a shard moves only the keys it owned. */
  lemma RemoveMovesOnlyOwned(large: seq<Point>, small: seq<Point>, shard: ShardId, h: U32, p: Point, q: Point)
    requires CollisionFree(large) && Without(large, small, shard) && First(large, h, p) && First(small, h, q)
    ensures p.shard != shard ==> q == p
  {
    if p.shard != shard {
      assert First(small, h, p);
      FirstUnique(small, h, p, q);
    }
  }

  // ----- segments -----

  function SegmentAt(ps: seq<Point>, i: nat): Segment
    requires i < |ps|
  {
    Segment(ps[if i == 0 then |ps| - 1 else i - 1].hash, ps[i].hash, ps[i].shard)
  }

  method Segments(r: Ring) returns (out: seq<Segment>)
    ensures |out| == |r.points| && forall i :: 0 <= i < |out| ==> out[i] == SegmentAt(r.points, i)
  {
    out := [];
    for i := 0 to |r.points|
      invariant |out| == i && forall j :: 0 <= j < i ==> out[j] == SegmentAt(r.points, j)
    {
      var start := if i == 0 then r.points[|r.points| - 1].hash else r.points[i - 1].hash;
      out := out + [Segment(start, r.points[i].hash, r.points[i].shard)];
    }
  }

  /**
   The arc after start up to and including end, going clockwise.  Where the two coincide it is the whole ring for the
   first point, all points then lying at one place, and nothing for a point that repeats the place of the one before.
   */
  ghost predicate Covers(ps: seq<Point>, i: nat, h: U32)
    requires i < |ps|
  {
    var s := SegmentAt(ps, i);
    if s.start < s.end then s.start < h <= s.end
    else if s.start > s.end then h > s.start || h <= s.end
    else i == 0
  }

  /** An arc is drawn for a shard exactly where Lookup sends keys, and there its end point is the first one clockwise. */
  lemma SegmentsAgree(ps: seq<Point>, h: U32, i: nat)
    requires Ordered(ps) && i < |ps|
    ensures Covers(ps, i, h) <==> OwnerAt(ps, h) == i
    ensures Covers(ps, i, h) <==> StartsRun(ps, i) && First(ps, h, ps[i])
  {
    hide Ordered, First;
    CoversOwned(ps, h, i);
    OwnerFirst(ps, h);
    if StartsRun(ps, i) && First(ps, h, ps[i]) {
      SamePlace(ps, h, OwnerAt(ps, h), i);
    }
  }

  lemma CoversOwned(ps: seq<Point>, h: U32, i: nat)
    requires Ordered(ps) && i < |ps|
    ensures Covers(ps, i, h) <==> OwnerAt(ps, h) == i
  {
    SlotBounds(ps, h);
  }

  /** Of the points at one place one starts the run. */
  lemma SamePlace(ps: seq<Point>, h: U32, i: nat, j: nat)
    requires Ordered(ps) && i < |ps| && j < |ps| && First(ps, h, ps[i]) && First(ps, h, ps[j]) && StartsRun(ps, i)
      && StartsRun(ps, j)
    ensures i == j
  {
    DistanceCases(h, ps[i]);
    DistanceCases(h, ps[j]);
  }

  /** The end of an arc belongs to it and its start does not, though the source's comment has it the other way. */
  lemma SegmentBoundary(ps: seq<Point>, i: nat)
    requires Ordered(ps) && i < |ps| && SegmentAt(ps, i).start != SegmentAt(ps, i).end
    ensures First(ps, SegmentAt(ps, i).end, ps[i]) && !First(ps, SegmentAt(ps, i).start, ps[i])
  {
    hide First, Ordered, OwnerAt;
    SegmentsAgree(ps, SegmentAt(ps, i).end, i);
    SegmentsAgree(ps, SegmentAt(ps, i).start, i);
    assert StartsRun(ps, i) by { DistinctStarts(ps, i); }
  }

  lemma DistinctStarts(ps: seq<Point>, i: nat)
    requires Ordered(ps) && i < |ps| && SegmentAt(ps, i).start != SegmentAt(ps, i).end
    ensures StartsRun(ps, i)
  {
  }

  // ----- building the ring -----

  function Digits(n: nat): Str {
    if n < 10 then [48 + n] else Digits(n / 10) + [48 + n % 10]
  }

  /** The number a string of decimal digits stands for. */
  ghost function Decimal(s: Str): int {
    if s == [] then 0 else 10 * Decimal(s[..|s| - 1]) + s[|s| - 1] - 48
  }

  /** Digits writes the decimal numeral: reading it gives the number back, and there is no leading zero. */
  lemma {:induction false} DigitsRead(n: nat)
    ensures Decimal(Digits(n)) == n && Digits(n) != [] && (n > 0 ==> Digits(n)[0] != 48)
    ensures forall b :: b in Digits(n) ==> 48 <= b <= 57
    decreases n
  {
    if n < 10 {
      assert Digits(n)[..0] == [];
    } else {
      DigitsRead(n / 10);
      assert Digits(n)[..|Digits(n)| - 1] == Digits(n / 10);
    }
  }

  /** What a virtual node is hashed under. */
  function NodeName(s: ShardId, i: nat): Str { s + Ascii("#") + Digits(i) }

  /** Two virtual nodes never have the same name, whatever characters the shard ids are made of. */
  lemma NamesDiffer(s: ShardId, i: nat, u: ShardId, j: nat)
    ensures NodeName(s, i) == NodeName(u, j) <==> s == u && i == j
  {
    hide NodeName;
    HashMark(s, i);
    HashMark(u, j);
    if NodeName(s, i) == NodeName(u, j) {
      assert |s| == |u|;
      DigitsRead(i);
      DigitsRead(j);
    }
  }

  /** The mark between id and number is the last of its kind. */
  lemma HashMark(s: ShardId, i: nat)
    ensures |NodeName(s, i)| > |s| && NodeName(s, i)[|s|] == 35
    ensures NodeName(s, i)[|s| + 1..] == Digits(i) && NodeName(s, i)[..|s|] == s
    ensures forall k :: |s| < k < |NodeName(s, i)| ==> NodeName(s, i)[k] != 35
  {
    assert Ascii("#") == [35];
    DigitsRead(i);
    forall k | |s| < k < |NodeName(s, i)|
      ensures NodeName(s, i)[k] != 35
    {
      assert NodeName(s, i)[k] == Digits(i)[k - |s| - 1];
    }
  }

  function PointOf(crc: Str -> U32, s: ShardId, i: nat): Point { Point(crc(NodeName(s, i)), s) }

  ghost predicate OnRing(crc: Str -> U32, shards: seq<ShardId>, vnodes: nat, p: Point) {
    exists i: nat :: i < vnodes && p.shard in shards && p == PointOf(crc, p.shard, i)
  }

  method Insert(ps: seq<Point>, p: Point) returns (r: seq<Point>)
    requires Ordered(ps)
    ensures Ordered(r) && multiset(r) == multiset(ps) + multiset{p}
  {
    var i := |ps|;
    while i > 0 && ps[i - 1].hash > p.hash
      invariant 0 <= i <= |ps|
      invariant forall j :: i <= j < |ps| ==> ps[j].hash > p.hash
    {
      i := i - 1;
    }
    r := ps[..i] + [p] + ps[i..];
    InsertedMembers(ps, p, i);
    InsertedOrder(ps, p, i);
  }

  lemma InsertedMembers(ps: seq<Point>, p: Point, i: nat)
    requires i <= |ps|
    ensures multiset(ps[..i] + [p] + ps[i..]) == multiset(ps) + multiset{p}
  {
    assert ps == ps[..i] + ps[i..];
  }

  lemma InsertedOrder(ps: seq<Point>, p: Point, i: nat)
    requires Ordered(ps) && i <= |ps| && (i > 0 ==> ps[i - 1].hash <= p.hash) && forall j :: i <= j < |ps| ==> ps[j].hash > p.hash
    ensures Ordered(ps[..i] + [p] + ps[i..])
  {
    assert forall j :: 0 <= j < i ==> ps[j].hash <= p.hash;
  }

  method Sort(ps: seq<Point>) returns (r: seq<Point>)
    ensures Ordered(r) && multiset(r) == multiset(ps)
  {
    r := [];
    for i := 0 to |ps|
      invariant Ordered(r) && multiset(r) == multiset(ps[..i])
    {
      assert ps[..i + 1] == ps[..i] + [ps[i]];
      r := Insert(r, ps[i]);
    }
    assert ps[..|ps|] == ps;
  }

  /** The virtual nodes of one shard, and of all of them, in the order they are made. */
  function NodesOf(crc: Str -> U32, s: ShardId, n: nat): seq<Point> {
    if n == 0 then [] else NodesOf(crc, s, n - 1) + [PointOf(crc, s, n - 1)]
  }

  function AllNodes(crc: Str -> U32, shards: seq<ShardId>, n: nat): seq<Point> {
    if shards == [] then [] else AllNodes(crc, shards[..|shards| - 1], n) + NodesOf(crc, shards[|shards| - 1], n)
  }

  /** A ring holds exactly its virtual nodes, each as often as it was made, in hash order. */
  ghost predicate RingOf(crc: Str -> U32, shards: seq<ShardId>, n: nat, ps: seq<Point>) {
    Ordered(ps) && multiset(ps) == multiset(AllNodes(crc, shards, n))
  }

  method NewRing(crc: Str -> U32, shards: seq<ShardId>, vnodes: int) returns (r: Ring)
    ensures r.vnodes == (if vnodes <= 0 then DEFAULT_VNODES else vnodes) && r.shards == shards
    ensures RingOf(crc, shards, r.vnodes, r.points)
  {
    var count: nat := if vnodes <= 0 then DEFAULT_VNODES else vnodes;
    var points: seq<Point> := [];
    for k := 0 to |shards|
      invariant points == AllNodes(crc, shards[..k], count)
    {
      var s := shards[k];
      ghost var before := points;
      for i := 0 to count
        invariant points == before + NodesOf(crc, s, i)
      {
        points := points + [PointOf(crc, s, i)];
      }
      assert shards[..k + 1][..k] == shards[..k];
    }
    assert shards[..|shards|] == shards;
    var sorted := Sort(points);
    r := Ring(sorted, count, shards);
  }

  lemma {:induction false} NodesMembers(crc: Str -> U32, s: ShardId, n: nat)
    ensures forall p :: p in NodesOf(crc, s, n) <==> OnRing(crc, [s], n, p)
    decreases n
  {
    if n > 0 {
      NodesMembers(crc, s, n - 1);
      OneMore(crc, s, n - 1);
    }
  }

  lemma {:induction false} AllMembers(crc: Str -> U32, shards: seq<ShardId>, n: nat)
    ensures forall p :: p in AllNodes(crc, shards, n) <==> OnRing(crc, shards, n, p)
    decreases |shards|
  {
    if shards != [] {
      var k := |shards| - 1;
      AllMembers(crc, shards[..k], n);
      NodesMembers(crc, shards[k], n);
      OneShard(crc, shards, k, n);
      assert shards[..k + 1] == shards;
    }
  }

  lemma RingMembers(crc: Str -> U32, shards: seq<ShardId>, n: nat, ps: seq<Point>)
    requires RingOf(crc, shards, n, ps)
    ensures forall p :: p in ps <==> OnRing(crc, shards, n, p)
  {
    AllMembers(crc, shards, n);
    SameMembers(ps, AllNodes(crc, shards, n));
  }

  lemma OneMore(crc: Str -> U32, s: ShardId, i: nat)
    ensures forall p :: OnRing(crc, [s], i + 1, p) <==> OnRing(crc, [s], i, p) || p == PointOf(crc, s, i)
  {
    forall p
      ensures OnRing(crc, [s], i + 1, p) <==> OnRing(crc, [s], i, p) || p == PointOf(crc, s, i)
    {
      if p == PointOf(crc, s, i) {
        assert i < i + 1 && p.shard in [s] && p == PointOf(crc, p.shard, i);
      }
    }
  }

  lemma OneShard(crc: Str -> U32, shards: seq<ShardId>, k: nat, n: nat)
    requires k < |shards|
    ensures forall p :: OnRing(crc, shards[..k + 1], n, p) <==> OnRing(crc, shards[..k], n, p) || OnRing(crc, [shards[k]], n, p)
  {
    assert shards[..k + 1] == shards[..k] + [shards[k]];
    assert forall s :: s in shards[..k + 1] <==> s in shards[..k] || s in [shards[k]];
  }

  lemma SameMembers(a: seq<Point>, b: seq<Point>)
    requires multiset(a) == multiset(b)
    ensures forall p :: p in a <==> p in b
  {
    forall p
      ensures p in a <==> p in b
    {
      assert p in a <==> p in multiset(a);
      assert p in b <==> p in multiset(b);
    }
  }

  // ----- how full the ring is -----

  ghost predicate NoRepeats<T(!new)>(a: seq<T>) { forall i, j :: 0 <= i < j < |a| ==> a[i] != a[j] }

  /** The hash tells all virtual nodes of these shards apart. */
  ghost predicate NoClash(crc: Str -> U32, shards: seq<ShardId>, n: nat) {
    forall s, i: nat, u, j: nat :: s in shards && u in shards && i < n && j < n && NodeName(s, i) != NodeName(u, j) ==>
      PointOf(crc, s, i).hash != PointOf(crc, u, j).hash
  }

  lemma {:induction false} NodesApart(crc: Str -> U32, s: ShardId, n: nat)
    requires NoClash(crc, [s], n)
    ensures |NodesOf(crc, s, n)| == n && NoRepeats(NodesOf(crc, s, n))
    decreases n
  {
    if n > 0 {
      hide NodeName;
      NodesApart(crc, s, n - 1);
      NodesMembers(crc, s, n - 1);
      forall i: nat | i < n - 1
        ensures PointOf(crc, s, i) != PointOf(crc, s, n - 1)
      {
        NamesDiffer(s, i, s, n - 1);
        assert s in [s];
      }
      Apart(NodesOf(crc, s, n - 1), [PointOf(crc, s, n - 1)]);
    }
  }

  lemma {:induction false} AllApart(crc: Str -> U32, shards: seq<ShardId>, n: nat)
    requires NoRepeats(shards) && NoClash(crc, shards, n)
    ensures |AllNodes(crc, shards, n)| == |shards| * n && NoRepeats(AllNodes(crc, shards, n))
    decreases |shards|
  {
    if shards != [] {
      hide AllNodes, NodesOf, NoClash, NoRepeats;
      var k := |shards| - 1;
      LastBlock(crc, shards, n);
      ClashPart(crc, shards, shards[..k], n);
      ClashPart(crc, shards, [shards[k]], n);
      AllApart(crc, shards[..k], n);
      NodesApart(crc, shards[k], n);
      BlocksApart(crc, shards, k, n);
      Apart(AllNodes(crc, shards[..k], n), NodesOf(crc, shards[k], n));
      assert |shards| * n == k * n + n;
    } else {
      assert AllNodes(crc, shards, n) == [];
    }
  }

  lemma LastBlock(crc: Str -> U32, shards: seq<ShardId>, n: nat)
    requires shards != [] && NoRepeats(shards)
    ensures
      var k := |shards| - 1;
      && AllNodes(crc, shards, n) == AllNodes(crc, shards[..k], n) + NodesOf(crc, shards[k], n)
      && NoRepeats(shards[..k])
  {
    hide NodesOf;
  }

  lemma BlocksApart(crc: Str -> U32, shards: seq<ShardId>, k: nat, n: nat)
    requires k < |shards| && NoRepeats(shards)
    ensures forall p :: p in AllNodes(crc, shards[..k], n) ==> p !in NodesOf(crc, shards[k], n)
  {
    hide AllNodes, NodesOf, PointOf;
    AllMembers(crc, shards[..k], n);
    NodesMembers(crc, shards[k], n);
    assert shards[k] !in shards[..k];
  }

  lemma ClashPart(crc: Str -> U32, shards: seq<ShardId>, some: seq<ShardId>, n: nat)
    requires NoClash(crc, shards, n) && forall s :: s in some ==> s in shards
    ensures NoClash(crc, some, n)
  {
    hide NodeName;
  }

  lemma Apart(a: seq<Point>, b: seq<Point>)
    requires NoRepeats(a) && NoRepeats(b) && forall p :: p in a ==> p !in b
    ensures NoRepeats(a + b)
  {
    forall i, j | 0 <= i < j < |a + b|
      ensures (a + b)[i] != (a + b)[j]
    {
      if i < |a| <= j {
        assert a[i] in a && b[j - |a|] in b;
      }
    }
  }

  lemma {:induction false} RepeatsCount(a: seq<Point>, p: Point)
    requires NoRepeats(a)
    ensures multiset(a)[p] <= 1
    decreases |a|
  {
    if a != [] {
      var k := |a| - 1;
      assert a == a[..k] + [a[k]];
      RepeatsCount(a[..k], p);
      assert a[k] !in a[..k];
    }
  }

  lemma PermutedApart(a: seq<Point>, b: seq<Point>)
    requires NoRepeats(a) && multiset(a) == multiset(b)
    ensures NoRepeats(b)
  {
    forall i, j | 0 <= i < j < |b|
      ensures b[i] != b[j]
    {
      assert b == b[..j] + [b[j]] + b[j + 1..] && b[i] in b[..j];
      RepeatsCount(a, b[j]);
    }
  }

  /** If the hash keeps them apart, every shard has all its virtual nodes, each at a place of its own. */
  lemma RingFull(crc: Str -> U32, shards: seq<ShardId>, n: nat, ps: seq<Point>)
    requires RingOf(crc, shards, n, ps) && NoRepeats(shards) && NoClash(crc, shards, n)
    ensures |ps| == |shards| * n && forall i, j :: 0 <= i < j < |ps| ==> ps[i].hash < ps[j].hash
  {
    hide AllNodes, NodeName;
    AllApart(crc, shards, n);
    SameLength(ps, AllNodes(crc, shards, n));
    PermutedApart(AllNodes(crc, shards, n), ps);
    RingMembers(crc, shards, n, ps);
    forall i, j | 0 <= i < j < |ps|
      ensures ps[i].hash < ps[j].hash
    {
      assert ps[i] in ps && ps[j] in ps;
      OnePlace(crc, shards, n, ps[i], ps[j]);
    }
  }

  lemma OnePlace(crc: Str -> U32, shards: seq<ShardId>, n: nat, p: Point, q: Point)
    requires NoClash(crc, shards, n) && OnRing(crc, shards, n, p) && OnRing(crc, shards, n, q)
    ensures p.hash == q.hash ==> p == q
  {
    hide NodeName;
    var i: nat :| i < n && p.shard in shards && p == PointOf(crc, p.shard, i);
    var j: nat :| j < n && q.shard in shards && q == PointOf(crc, q.shard, j);
    NamesDiffer(p.shard, i, q.shard, j);
  }

  /** Every node builds the same ring, whatever order the shards were listed in. */
  lemma RingCanonical(crc: Str -> U32, shards: seq<ShardId>, other: seq<ShardId>, n: nat, a: seq<Point>, b: seq<Point>)
    requires RingOf(crc, shards, n, a) && RingOf(crc, other, n, b) && multiset(shards) == multiset(other)
      && CollisionFree(a)
    ensures a == b
  {
    hide AllNodes;
    NodesPermute(crc, shards, other, n);
    SortedSame(a, b);
  }

  /** Sorting decides everything but the order of points at one place, and those are equal. */
  lemma {:induction false} SortedSame(a: seq<Point>, b: seq<Point>)
    requires Ordered(a) && Ordered(b) && CollisionFree(a) && multiset(a) == multiset(b)
    ensures a == b
    decreases |a|
  {
    hide Ordered, CollisionFree;
    SameLength(a, b);
    if a != [] {
      SameHead(a, b);
      SameTail(a, b);
      SortedSame(a[1..], b[1..]);
      Rejoin(a, b);
    }
  }

  lemma SameLength(a: seq<Point>, b: seq<Point>)
    requires multiset(a) == multiset(b)
    ensures |a| == |b|
  {
    assert |a| == |multiset(a)| && |b| == |multiset(b)|;
  }

  lemma SameTail(a: seq<Point>, b: seq<Point>)
    requires a != [] && b != [] && a[0] == b[0] && multiset(a) == multiset(b) && Ordered(a) && Ordered(b)
      && CollisionFree(a)
    ensures multiset(a[1..]) == multiset(b[1..]) && Ordered(a[1..]) && Ordered(b[1..]) && CollisionFree(a[1..])
  {
    hide Ordered, CollisionFree;
    TailOf(a);
    TailOf(b);
  }

  lemma Rejoin(a: seq<Point>, b: seq<Point>)
    requires a != [] && b != [] && a[0] == b[0] && a[1..] == b[1..]
    ensures a == b
  {
    assert a == [a[0]] + a[1..] && b == [b[0]] + b[1..];
  }

  lemma SameHead(a: seq<Point>, b: seq<Point>)
    requires Ordered(a) && Ordered(b) && CollisionFree(a) && multiset(a) == multiset(b) && a != [] && b != []
    ensures a[0] == b[0]
  {
    SameMembers(a, b);
    assert a[0] in a && b[0] in b;
    assert a[0] in b && b[0] in a;
  }

  lemma TailOf(a: seq<Point>)
    requires a != []
    ensures multiset(a[1..]) == multiset(a) - multiset{a[0]}
    ensures (Ordered(a) ==> Ordered(a[1..])) && (CollisionFree(a) ==> CollisionFree(a[1..]))
  {
    assert a == [a[0]] + a[1..];
    assert forall p :: p in a[1..] ==> p in a;
  }

  /** The nodes made depend on which shards are listed how often, not on the order. */
  lemma {:induction false} NodesPermute(crc: Str -> U32, shards: seq<ShardId>, other: seq<ShardId>, n: nat)
    requires multiset(shards) == multiset(other)
    ensures multiset(AllNodes(crc, shards, n)) == multiset(AllNodes(crc, other, n))
    decreases |shards|
  {
    assert |shards| == |multiset(shards)| && |other| == |multiset(other)|;
    if shards != [] {
      var k := |shards| - 1;
      var s := shards[k];
      assert shards == shards[..k] + [s];
      assert s in multiset(other);
      var j :| 0 <= j < |other| && other[j] == s;
      var rest := other[..j] + other[j + 1..];
      assert other == other[..j] + [s] + other[j + 1..];
      assert multiset(rest) == multiset(other) - multiset{s};
      NodesPermute(crc, shards[..k], rest, n);
      NodesWithout(crc, other, j, n);
    }
  }

  lemma {:induction false} NodesWithout(crc: Str -> U32, shards: seq<ShardId>, j: nat, n: nat)
    requires j < |shards|
    ensures multiset(AllNodes(crc, shards, n))
         == multiset(AllNodes(crc, shards[..j] + shards[j + 1..], n)) + multiset(NodesOf(crc, shards[j], n))
    decreases |shards|
  {
    hide AllNodes, NodesOf;
    var k := |shards| - 1;
    NodesLast(crc, shards, n);
    if j == k {
      assert shards[..j] + shards[j + 1..] == shards[..k];
    } else {
      NodesWithout(crc, shards[..k], j, n);
      var rest := shards[..j] + shards[j + 1..];
      NodesLast(crc, rest, n);
      assert rest[..|rest| - 1] == shards[..k][..j] + shards[..k][j + 1..];
    }
  }

  lemma NodesLast(crc: Str -> U32, shards: seq<ShardId>, n: nat)
    requires shards != []
    ensures
      var k := |shards| - 1;
      multiset(AllNodes(crc, shards, n)) == multiset(AllNodes(crc, shards[..k], n)) + multiset(NodesOf(crc, shards[k], n))
  {
  }

  /** Growing the ring by a shard adds that shard's points and no others. */
  lemma GrownRing(crc: Str -> U32, shards: seq<ShardId>, n: nat, shard: ShardId, small: seq<Point>, large: seq<Point>)
    requires shard !in shards && RingOf(crc, shards, n, small) && RingOf(crc, shards + [shard], n, large)
    ensures Without(large, small, shard)
  {
    hide AllNodes;
    RingMembers(crc, shards, n, small);
    RingMembers(crc, shards + [shard], n, large);
  }

  /**
   Minimal movement, both ways: between a ring and the ring with one shard more, a key that the larger ring does
   not send to that shard has the same owner in both.
   */
  lemma LookupMonotone(crc: Str -> U32, shards: seq<ShardId>, n: nat, shard: ShardId, small: seq<Point>,
                       large: seq<Point>, h: U32)
    requires shard !in shards && RingOf(crc, shards, n, small) && RingOf(crc, shards + [shard], n, large)
      && CollisionFree(large)
    ensures small != [] ==> large != []
    ensures small != [] && large[OwnerAt(large, h)].shard != shard ==>
      small[OwnerAt(small, h)].shard == large[OwnerAt(large, h)].shard
  {
    hide AllNodes, RingOf, OwnerAt, CollisionFree;
    assert Ordered(small) && Ordered(large) by { RingsOrdered(crc, shards, n, shard, small, large); }
    GrownRing(crc, shards, n, shard, small, large);
    if small != [] {
      assert small[0] in large;
      OwnerFirst(small, h);
      OwnerFirst(large, h);
      AddMovesOnlyToNew(large, small, shard, h, small[OwnerAt(small, h)], large[OwnerAt(large, h)]);
    }
  }

  lemma RingsOrdered(crc: Str -> U32, shards: seq<ShardId>, n: nat, shard: ShardId, small: seq<Point>,
                     large: seq<Point>)
    requires RingOf(crc, shards, n, small) && RingOf(crc, shards + [shard], n, large)
    ensures Ordered(small) && Ordered(large)
  {
  }
}
