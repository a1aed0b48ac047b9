/**
 The bytes of a ledger command and of a shard command in the Raft log (ledger/codec.go, shard/twopc.go).

 Lengths are 16 bits wide, so a command survives the trip exactly if all its lengths fit; both directions
 are proved.
 */
module CommandCodec {
  import opened Bytes
  import opened Parsing
  import opened Ledger
  import opened ShardMachine

  // ----- reading from a byte reader -----

  function Zeros(n: nat): Str { seq(n, _ => 0) }

  /** bytes.Reader.Read into a buffer of n bytes: an error only at the end of input, otherwise what is there. */
  function Read(d: Str, n: nat): (r: Option<(Str, Str)>)
    ensures r.Some? ==> |r.value.0| == n
  {
    if d == [] then None
    else if n <= |d| then Some((d[..n], d[n..]))
    else Some((d + Zeros(n - |d|), []))
  }

  lemma ReadExact(s: Str, rest: Str)
    requires s + rest != []
    ensures Read(s + rest, |s|) == Some((s, rest))
  {
    assert (s + rest)[..|s|] == s && (s + rest)[|s|..] == rest;
  }

  // ----- ledger commands -----

  function WriteStr(s: Str): Str { LittleEndian(|s| % 65536, 2) + s }

  function ReadStr(d: Str): Option<(Str, Str)> {
    var (l, d1) :- Read(d, 2);
    var n := LittleValue(l);
    if n == 0 then Some(([], d1)) else Read(d1, n)
  }

  function EncodeUnstamped(c: Command): Str {
    [c.op] + WriteStr(c.key) + WriteStr(c.from) + WriteStr(c.to) + LittleEndian(c.amount % TWO_64, 8)
  }

  function EncodeLedger(c: Command): Str {
    EncodeUnstamped(c) + LittleEndian(c.ts.wall, 8) + LittleEndian(c.ts.logical, 4)
  }

  /** The trailing timestamp: absent, complete, or refused. */
  function ReadTimestamp(d: Str): Option<Timestamp> {
    if |d| >= 12 then Some(Timestamp(LittleValue(d[..8]) % TWO_64, LittleValue(d[8..12]) % 0x1_0000_0000))
    else if d == [] then Some(UNSTAMPED)
    else None
  }

  function DecodeLedger(d: Str): Option<Command> {
    if d == [] then None
    else
      var (key, d1) :- ReadStr(d[1..]);
      var (from, d2) :- ReadStr(d1);
      var (to, d3) :- ReadStr(d2);
      var (amount, d4) :- Read(d3, 8);
      var ts :- ReadTimestamp(d4);
      Some(Command(d[0], key, from, to, Wrap(LittleValue(amount)), ts))
  }

  ghost predicate Short16(s: Str) { |s| < 65536 }

  ghost predicate LedgerStorable(c: Command) { Short16(c.key) && Short16(c.from) && Short16(c.to) }

  lemma Pow16()
    ensures Pow256(2) == 65536
  {
    assert Pow256(1) == 256;
  }

  lemma StrBack(s: Str, rest: Str)
    requires Short16(s) && rest != []
    ensures ReadStr(WriteStr(s) + rest) == Some((s, rest))
  {
    hide LittleValue, LittleEndian, Read;
    Pow16();
    LittleRoundTrip(|s|, 2);
    var l := LittleEndian(|s| % 65536, 2);
    assert WriteStr(s) + rest == l + (s + rest);
    ReadExact(l, s + rest);
    ReadExact(s, rest);
    assert s == [] ==> s + rest == rest;
  }

  /** No decoded string is longer than its 16-bit length can say. */
  lemma StrBounded(d: Str)
    requires ReadStr(d).Some?
    ensures Short16(ReadStr(d).value.0)
  {
    hide Read;
    Pow16();
    LittleBound(Read(d, 2).value.0);
  }

  lemma FieldsBack(c: Command, rest: Str)
    requires LedgerStorable(c)
    ensures DecodeLedger(EncodeUnstamped(c) + rest) ==
      match ReadTimestamp(rest)
      case None => None
      case Some(ts) => Some(c.(ts := ts))
  {
    hide LittleValue, LittleEndian, Read, ReadStr, WriteStr, ReadTimestamp;
    var a := LittleEndian(c.amount % TWO_64, 8);
    var r3 := a + rest;
    var r2 := WriteStr(c.to) + r3;
    var r1 := WriteStr(c.from) + r2;
    var d := EncodeUnstamped(c) + rest;
    assert d == [c.op] + (WriteStr(c.key) + r1);
    assert d[1..] == WriteStr(c.key) + r1;
    assert |WriteStr(c.to)| >= 2 && |WriteStr(c.from)| >= 2 by { StrSize(c.to); StrSize(c.from); }
    StrBack(c.key, r1);
    StrBack(c.from, r2);
    StrBack(c.to, r3);
    ReadExact(a, rest);
    Pow256Words();
    LittleRoundTrip(c.amount % TWO_64, 8);
    assert Wrap(c.amount % TWO_64) == c.amount;
  }

  lemma StrSize(s: Str)
    ensures |WriteStr(s)| == |s| + 2
  {
  }

  lemma TimestampBack(ts: Timestamp)
    ensures ReadTimestamp(LittleEndian(ts.wall, 8) + LittleEndian(ts.logical, 4)) == Some(ts)
  {
    hide LittleValue, LittleEndian;
    var d := LittleEndian(ts.wall, 8) + LittleEndian(ts.logical, 4);
    assert d[..8] == LittleEndian(ts.wall, 8) && d[8..12] == LittleEndian(ts.logical, 4);
    Pow256Words();
    LittleRoundTrip(ts.wall, 8);
    LittleRoundTrip(ts.logical, 4);
  }

  lemma DecodedBounded(d: Str)
    requires DecodeLedger(d).Some?
    ensures LedgerStorable(DecodeLedger(d).value)
  {
    hide ReadStr, Read, ReadTimestamp;
    StrBounded(d[1..]);
    var d1 := ReadStr(d[1..]).value.1;
    StrBounded(d1);
    StrBounded(ReadStr(d1).value.1);
  }

  /** A ledger command survives the log exactly if its three strings fit their lengths. */
  lemma LedgerRoundTrip(c: Command)
    ensures DecodeLedger(EncodeLedger(c)) == Some(c) <==> LedgerStorable(c)
  {
    hide DecodeLedger, EncodeUnstamped, LittleEndian, ReadTimestamp;
    if LedgerStorable(c) {
      var ts := LittleEndian(c.ts.wall, 8) + LittleEndian(c.ts.logical, 4);
      assert EncodeLedger(c) == EncodeUnstamped(c) + ts;
      FieldsBack(c, ts);
      TimestampBack(c.ts);
    }
    if DecodeLedger(EncodeLedger(c)) == Some(c) {
      DecodedBounded(EncodeLedger(c));
    }
  }

  /** A record from before timestamps existed decodes to the same command, unstamped. */
  lemma OldRecord(c: Command)
    requires LedgerStorable(c)
    ensures DecodeLedger(EncodeUnstamped(c)) == Some(c.(ts := UNSTAMPED))
  {
    hide DecodeLedger, EncodeUnstamped;
    FieldsBack(c, []);
    assert EncodeUnstamped(c) + [] == EncodeUnstamped(c);
  }

  // ----- shard commands -----

  function AppendStr(s: Str): Str { [|s| / 256 % 256, |s| % 256] + s }

  function Word(hi: Byte, lo: Byte): (n: nat)
    ensures n < 65536
  {
    var h: int := hi;
    h * 256 + lo
  }

  function TakeStr(d: Str): Option<(Str, Str)> {
    if |d| < 2 then None
    else
      var n := Word(d[0], d[1]);
      if |d| < 2 + n then None else Some((d[2..2 + n], d[2 + n..]))
  }

  function EncodeHead(c: ShardCommand): Str {
    [c.op] + AppendStr(c.txId) + [if c.commit then 1 else 0, if c.debit then 1 else 0]
      + [|c.participants| / 256 % 256, |c.participants| % 256]
  }

  function EncodeShard(c: ShardCommand): Str {
    EncodeHead(c) + Concat(c.participants, AppendStr) + AppendStr(c.coordinator) + EncodeLedger(c.ledger)
  }

  function DecodeShard(d: Str): Option<ShardCommand> {
    if d == [] then None
    else
      var (txId, d1) :- TakeStr(d[1..]);
      if |d1| < 4 then None
      else
        var n := Word(d1[2], d1[3]);
        var (participants, d2) :- GetMany(n, d1[4..], TakeStr, [], AddLast);
        var (coordinator, d3) :- TakeStr(d2);
        var ledger :- DecodeLedger(d3);
        Some(ShardCommand(d[0], txId, ledger, d1[0] == 1, d1[1] == 1, participants, coordinator))
  }

  ghost predicate ShardStorable(c: ShardCommand) {
    && Short16(c.txId) && Short16(c.coordinator) && |c.participants| < 65536
    && (forall i :: 0 <= i < |c.participants| ==> Short16(c.participants[i]))
    && LedgerStorable(c.ledger)
  }

  lemma TakeBack(s: Str)
    requires Short16(s)
    ensures Reads(TakeStr, AppendStr(s), s)
  {
    forall rest: Str
      ensures TakeStr(AppendStr(s) + rest) == Some((s, rest))
    {
      TakeBackThen(s, rest);
    }
  }

  lemma TakeBackThen(s: Str, rest: Str)
    requires Short16(s)
    ensures TakeStr(AppendStr(s) + rest) == Some((s, rest))
  {
    var d := AppendStr(s) + rest;
    assert d[2..2 + |s|] == s && d[2 + |s|..] == rest;
  }

  lemma TakeBounded(d: Str)
    requires TakeStr(d).Some?
    ensures Short16(TakeStr(d).value.0)
  {
  }

  lemma {:induction false} ManyBounded(n: nat, d: Str, acc: seq<ShardId>)
    requires GetMany(n, d, TakeStr, acc, AddLast).Some? && forall i :: 0 <= i < |acc| ==> Short16(acc[i])
    ensures
      var ps := GetMany(n, d, TakeStr, acc, AddLast).value.0;
      |ps| == |acc| + n && forall i :: 0 <= i < |ps| ==> Short16(ps[i])
    decreases n
  {
    if n > 0 {
      var (p, d1) := TakeStr(d).value;
      TakeBounded(d);
      ManyBounded(n - 1, d1, acc + [p]);
    }
  }

  lemma ShardBounded(d: Str)
    requires DecodeShard(d).Some?
    ensures ShardStorable(DecodeShard(d).value)
  {
    hide TakeStr, GetMany, DecodeLedger;
    TakeBounded(d[1..]);
    var d1 := TakeStr(d[1..]).value.1;
    var n := Word(d1[2], d1[3]);
    ManyBounded(n, d1[4..], []);
    var d2 := GetMany(n, d1[4..], TakeStr, [], AddLast).value.1;
    TakeBounded(d2);
    DecodedBounded(TakeStr(d2).value.1);
  }

  lemma ShardBack(c: ShardCommand)
    requires ShardStorable(c)
    ensures DecodeShard(EncodeShard(c)) == Some(c)
  {
    hide TakeStr, AppendStr, GetMany, Concat, DecodeLedger, EncodeLedger, FoldLeft, Reads, LedgerStorable;
    var r3 := EncodeLedger(c.ledger);
    var r2 := AppendStr(c.coordinator) + r3;
    var r1 := Concat(c.participants, AppendStr) + r2;
    var n := |c.participants|;
    var flags: Str := [if c.commit then 1 else 0, if c.debit then 1 else 0];
    var size: Str := [n / 256 % 256, n % 256];
    var d1 := flags + size + r1;
    var d := EncodeShard(c);
    assert d == [c.op] + (AppendStr(c.txId) + d1);
    assert d[1..] == AppendStr(c.txId) + d1;
    TakeBackThen(c.txId, d1);
    assert d1[4..] == r1 && Word(d1[2], d1[3]) == n;
    forall i | 0 <= i < n
      ensures Reads(TakeStr, AppendStr(c.participants[i]), c.participants[i])
    {
      TakeBack(c.participants[i]);
    }
    ManyReads(c.participants, AppendStr, TakeStr, [], AddLast, r2);
    AddLastFold([], c.participants);
    assert [] + c.participants == c.participants;
    TakeBackThen(c.coordinator, r3);
    LedgerRoundTrip(c.ledger);
  }

  /** A shard command survives the log exactly if every length in it fits. */
  lemma ShardRoundTrip(c: ShardCommand)
    ensures DecodeShard(EncodeShard(c)) == Some(c) <==> ShardStorable(c)
  {
    hide DecodeShard, EncodeShard, ShardStorable;
    if ShardStorable(c) {
      ShardBack(c);
    }
    if DecodeShard(EncodeShard(c)) == Some(c) {
      ShardBounded(EncodeShard(c));
    }
  }

  // ----- the loops over participants -----

  method Encode(c: ShardCommand) returns (b: Str)
    ensures b == EncodeShard(c)
  {
    hide AppendStr, EncodeLedger, EncodeHead;
    b := EncodeHead(c);
    for i := 0 to |c.participants|
      invariant b == EncodeHead(c) + Concat(c.participants[..i], AppendStr)
    {
      assert c.participants[..i + 1] == c.participants[..i] + [c.participants[i]];
      ConcatSnoc(c.participants[..i], c.participants[i], AppendStr);
      b := b + AppendStr(c.participants[i]);
    }
    assert c.participants[..|c.participants|] == c.participants;
    b := b + AppendStr(c.coordinator);
    b := b + EncodeLedger(c.ledger);
  }

  /** pos walks the data; what is left to read is data[pos..]. */
  method Decode(data: Str) returns (r: Option<ShardCommand>)
    ensures r == DecodeShard(data)
  {
    hide TakeStr, DecodeLedger;
    if |data| < 1 {
      return None;
    }
    var t := TakeStr(data[1..]);
    if t == None {
      return None;
    }
    var rest := t.value.1;
    if |rest| < 4 {
      return None;
    }
    var n := Word(rest[2], rest[3]);
    var ps: seq<ShardId> := [];
    var left := rest[4..];
    for i := 0 to n
      invariant GetMany(n, rest[4..], TakeStr, [], AddLast) == GetMany(n - i, left, TakeStr, ps, AddLast)
    {
      var p := TakeStr(left);
      if p == None {
        return None;
      }
      ps, left := ps + [p.value.0], p.value.1;
    }
    var c := TakeStr(left);
    if c == None {
      return None;
    }
    var ledger := DecodeLedger(c.value.1);
    if ledger == None {
      return None;
    }
    return Some(ShardCommand(data[0], t.value.0, ledger.value, rest[0] == 1, rest[1] == 1, ps, c.value.0));
  }
}
