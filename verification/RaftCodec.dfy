/**
 The bytes of Figure 2's persistent state (raft/persist.go): what is saved is what is loaded, exactly when
 every length fits its field and no command is present but empty.
 */
module RaftCodec {
  import opened Bytes
  import opened Parsing
  import opened RaftLog
  import opened RaftState
  import opened CommandCodec

  // ----- encoding -----

  function Command(e: LogEntry): Str { match e.command case None => [] case Some(c) => c }

  function EncodeEntry(e: LogEntry): Str {
    LittleEndian(e.term % TWO_64, 8) + LittleEndian(e.index % TWO_64, 8)
      + LittleEndian(|Command(e)| % 0x1_0000_0000, 4) + Command(e)
  }

  function EncodeVote(v: Option<NodeId>): Str {
    match v
    case None => [0] + LittleEndian(0, 2)
    case Some(id) => [1] + LittleEndian(|id| % 65536, 2) + id
  }

  function EncodeDurable(s: Durable): Str {
    LittleEndian(s.term % TWO_64, 8) + EncodeVote(s.votedFor)
      + LittleEndian(|s.log| % TWO_64, 8) + Concat(s.log, EncodeEntry)
  }

  // ----- decoding -----

  function ReadWord(d: Str, n: nat): Option<(nat, Str)> {
    var (b, d1) :- Read(d, n);
    Some((LittleValue(b), d1))
  }

  function DecodeEntry(d: Str): Option<(LogEntry, Str)> {
    var (term, d1) :- ReadWord(d, 8);
    var (index, d2) :- ReadWord(d1, 8);
    var (n, d3) :- ReadWord(d2, 4);
    if n == 0 then Some((LogEntry(term, index, None), d3))
    else
      var (command, d4) :- Read(d3, n);
      Some((LogEntry(term, index, Some(command)), d4))
  }

  function DecodeVote(d: Str): Option<(Option<NodeId>, Str)> {
    if d == [] then None
    else
      var (n, d1) :- ReadWord(d[1..], 2);
      if d[0] != 1 then Some((None, d1))
      else
        var (v, d2) :- Read(d1, n);
        Some((Some(v), d2))
  }

  function DecodeDurable(d: Str): Option<Durable> {
    var (term, d1) :- ReadWord(d, 8);
    var (vote, d2) :- DecodeVote(d1);
    var (n, d3) :- ReadWord(d2, 8);
    var (log, _) :- GetMany(n, d3, DecodeEntry, [], AddLast);
    Some(Durable(term, vote, log))
  }

  // ----- what the format can carry -----

  ghost predicate EntryStorable(e: LogEntry) {
    e.term < TWO_64 && e.index < TWO_64 && (e.command.Some? ==> 0 < |e.command.value| < 0x1_0000_0000)
  }

  ghost predicate Storable(s: Durable) {
    && s.term < TWO_64 && (s.votedFor.Some? ==> Short16(s.votedFor.value)) && |s.log| < TWO_64
    && forall i :: 0 <= i < |s.log| ==> EntryStorable(s.log[i])
  }

  lemma WordBack(x: nat, n: nat, rest: Str)
    requires 0 < n && x < Pow256(n)
    ensures ReadWord(LittleEndian(x, n) + rest, n) == Some((x, rest))
  {
    hide LittleValue, LittleEndian, Read;
    LittleRoundTrip(x, n);
    ReadExact(LittleEndian(x, n), rest);
  }

  lemma WordBounded(d: Str, n: nat)
    requires ReadWord(d, n).Some?
    ensures ReadWord(d, n).value.0 < Pow256(n)
  {
    LittleBound(Read(d, n).value.0);
  }

  /** An empty command at the very end needs no byte, anything else is there to be read. */
  lemma EntryBackThen(e: LogEntry, rest: Str)
    requires EntryStorable(e)
    ensures DecodeEntry(EncodeEntry(e) + rest) == Some((e, rest))
  {
    hide LittleValue, LittleEndian, Read, ReadWord;
    Pow256Words();
    var c := Command(e);
    var r3 := c + rest;
    var r2 := LittleEndian(|c|, 4) + r3;
    var r1 := LittleEndian(e.index, 8) + r2;
    assert EncodeEntry(e) + rest == LittleEndian(e.term, 8) + r1;
    WordBack(e.term, 8, r1);
    WordBack(e.index, 8, r2);
    WordBack(|c|, 4, r3);
    if e.command == None {
      assert r3 == rest;
    } else {
      ReadExact(c, rest);
    }
  }

  lemma EntryBack(e: LogEntry)
    requires EntryStorable(e)
    ensures Reads(DecodeEntry, EncodeEntry(e), e)
  {
    hide DecodeEntry, EncodeEntry;
    forall rest: Str
      ensures DecodeEntry(EncodeEntry(e) + rest) == Some((e, rest))
    {
      EntryBackThen(e, rest);
    }
  }

  lemma VoteBack(v: Option<NodeId>, rest: Str)
    requires (v.Some? ==> Short16(v.value)) && rest != []
    ensures DecodeVote(EncodeVote(v) + rest) == Some((v, rest))
  {
    hide LittleValue, LittleEndian, Read, ReadWord;
    Pow16();
    var d := EncodeVote(v) + rest;
    match v
    case None =>
      assert d[1..] == LittleEndian(0, 2) + rest;
      WordBack(0, 2, rest);
    case Some(id) =>
      assert d[1..] == LittleEndian(|id|, 2) + (id + rest);
      WordBack(|id|, 2, id + rest);
      ReadExact(id, rest);
  }

  lemma DurableBack(s: Durable)
    requires Storable(s)
    ensures DecodeDurable(EncodeDurable(s)) == Some(s)
  {
    hide LittleValue, LittleEndian, ReadWord, DecodeVote, EncodeVote, DecodeEntry, EncodeEntry, GetMany, Concat,
         FoldLeft, Reads;
    Pow256Words();
    var r3 := Concat(s.log, EncodeEntry);
    var r2 := LittleEndian(|s.log|, 8) + r3;
    var r1 := EncodeVote(s.votedFor) + r2;
    assert EncodeDurable(s) == LittleEndian(s.term, 8) + r1;
    WordBack(s.term, 8, r1);
    VoteBack(s.votedFor, r2);
    WordBack(|s.log|, 8, r3);
    forall i | 0 <= i < |s.log|
      ensures Reads(DecodeEntry, EncodeEntry(s.log[i]), s.log[i])
    {
      EntryBack(s.log[i]);
    }
    ManyReads(s.log, EncodeEntry, DecodeEntry, [], AddLast, []);
    assert r3 + [] == r3;
    AddLastFold([], s.log);
    assert [] + s.log == s.log;
  }

  // ----- nothing else can come back -----

  lemma EntryBounded(d: Str)
    requires DecodeEntry(d).Some?
    ensures EntryStorable(DecodeEntry(d).value.0)
  {
    hide Read, ReadWord;
    Pow256Words();
    WordBounded(d, 8);
    var d1 := ReadWord(d, 8).value.1;
    WordBounded(d1, 8);
    WordBounded(ReadWord(d1, 8).value.1, 4);
  }

  lemma {:induction false} EntriesBounded(n: nat, d: Str, acc: seq<LogEntry>)
    requires GetMany(n, d, DecodeEntry, acc, AddLast).Some? && forall i :: 0 <= i < |acc| ==> EntryStorable(acc[i])
    ensures
      var log := GetMany(n, d, DecodeEntry, acc, AddLast).value.0;
      |log| == |acc| + n && forall i :: 0 <= i < |log| ==> EntryStorable(log[i])
    decreases n
  {
    hide DecodeEntry, EntryStorable;
    if n > 0 {
      var (e, d1) := DecodeEntry(d).value;
      EntryBounded(d);
      EntriesBounded(n - 1, d1, acc + [e]);
    }
  }

  lemma VoteBounded(d: Str)
    requires DecodeVote(d).Some?
    ensures DecodeVote(d).value.0.Some? ==> Short16(DecodeVote(d).value.0.value)
  {
    hide Read, ReadWord;
    Pow16();
    WordBounded(d[1..], 2);
  }

  lemma DurableBounded(d: Str)
    requires DecodeDurable(d).Some?
    ensures Storable(DecodeDurable(d).value)
  {
    hide ReadWord, DecodeVote, DecodeEntry, EntryStorable, GetMany;
    Pow256Words();
    WordBounded(d, 8);
    var d1 := ReadWord(d, 8).value.1;
    VoteBounded(d1);
    var d2 := DecodeVote(d1).value.1;
    WordBounded(d2, 8);
    var (n, d3) := ReadWord(d2, 8).value;
    EntriesBounded(n, d3, []);
  }

  /** Loading what was saved gives the same state exactly if the state fits the format. */
  lemma DurableRoundTrip(s: Durable)
    ensures DecodeDurable(EncodeDurable(s)) == Some(s) <==> Storable(s)
  {
    hide DecodeDurable, EncodeDurable, Storable;
    if Storable(s) {
      DurableBack(s);
    }
    if DecodeDurable(EncodeDurable(s)) == Some(s) {
      DurableBounded(EncodeDurable(s));
    }
  }

  // ----- the loops over entries -----

  method Encode(s: Durable) returns (b: Str)
    ensures b == EncodeDurable(s)
  {
    hide LittleEndian, EncodeVote, EncodeEntry;
    var head := LittleEndian(s.term % TWO_64, 8) + EncodeVote(s.votedFor) + LittleEndian(|s.log| % TWO_64, 8);
    b := head;
    for i := 0 to |s.log|
      invariant b == head + Concat(s.log[..i], EncodeEntry)
    {
      assert s.log[..i + 1] == s.log[..i] + [s.log[i]];
      ConcatSnoc(s.log[..i], s.log[i], EncodeEntry);
      b := b + EncodeEntry(s.log[i]);
    }
    assert s.log[..|s.log|] == s.log;
  }

  method Decode(data: Str) returns (r: Option<Durable>)
    ensures r == DecodeDurable(data)
  {
    hide ReadWord, DecodeVote, DecodeEntry;
    var term := ReadWord(data, 8);
    if term == None {
      return None;
    }
    var vote := DecodeVote(term.value.1);
    if vote == None {
      return None;
    }
    var count := ReadWord(vote.value.1, 8);
    if count == None {
      return None;
    }
    var log: seq<LogEntry> := [];
    var n, left := count.value.0, count.value.1;
    for i := 0 to n
      invariant GetMany(n, count.value.1, DecodeEntry, [], AddLast) == GetMany(n - i, left, DecodeEntry, log, AddLast)
    {
      var e := DecodeEntry(left);
      if e == None {
        return None;
      }
      log, left := log + [e.value.0], e.value.1;
    }
    return Some(Durable(term.value.0, vote.value.0, log));
  }
}
