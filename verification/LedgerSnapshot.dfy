/**
 Ledger snapshots (ledger/snapshot.go): the bytes a ledger is saved as, and what is read back from them.
 */
module LedgerSnapshot {
  import opened Bytes
  import opened Parsing
  import opened SortedKeys
  import opened Ledger

  // ----- maps, in key order -----

  function Pairs<V>(m: map<Str, V>, keys: seq<Str>): seq<(Str, V)>
    requires forall k :: k in keys ==> k in m
  {
    seq(|keys|, i requires 0 <= i < |keys| => (keys[i], m[keys[i]]))
  }

  ghost function Entries<V>(m: map<Str, V>): (r: seq<(Str, V)>)
    ensures forall p :: p in r ==> p.0 in m && m[p.0] == p.1
  {
    var keys := Keys(m.Keys);
    assert forall k :: k in keys ==> k in Elements(keys);
    Pairs(m, keys)
  }

  ghost function PutMap<V>(m: map<Str, V>, put: ((Str, V)) -> Str): Str {
    PutU64(|m|) + Concat(Entries(m), put)
  }

  function AddPair<V>(m: map<Str, V>, p: (Str, V)): map<Str, V> { m[p.0 := p.1] }

  function GetMap<V>(d: Str, item: Str -> Option<((Str, V), Str)>): Option<(map<Str, V>, Str)> {
    var (n, d1) :- GetU64(d);
    GetMany(n, d1, item, map[], AddPair)
  }

  lemma {:induction false} PairsFold<V>(m: map<Str, V>, keys: seq<Str>, acc: map<Str, V>)
    requires forall k :: k in keys ==> k in m
    ensures FoldLeft(acc, Pairs(m, keys), AddPair) == acc + map k | k in keys :: m[k]
    decreases |keys|
  {
    if keys == [] {
      assert Pairs(m, keys) == [];
    } else {
      var p := Pairs(m, keys);
      assert p[1..] == Pairs(m, keys[1..]);
      PairsFold(m, keys[1..], acc[keys[0] := m[keys[0]]]);
      assert acc[keys[0] := m[keys[0]]] + (map k | k in keys[1..] :: m[k]) == acc + map k | k in keys :: m[k];
    }
  }

  lemma EntriesFold<V>(m: map<Str, V>)
    ensures FoldLeft(map[], Entries(m), AddPair) == m && |Entries(m)| == |m|
  {
    var keys := Keys(m.Keys);
    KeysAre(m.Keys, keys);
    assert forall k :: k in keys <==> k in Elements(keys);
    PairsFold(m, keys, map[]);
    assert (map k | k in keys :: m[k]) == m;
  }

  lemma MapReads<V(!new)>(m: map<Str, V>, put: ((Str, V)) -> Str, item: Str -> Option<((Str, V), Str)>, rest: Str)
    requires |m| < TWO_64 && forall k :: k in m ==> Reads(item, put((k, m[k])), (k, m[k]))
    ensures GetMap(PutMap(m, put) + rest, item) == Some((m, rest))
  {
    hide GetU64, LittleEndian, Entries, Reads;
    var es := Entries(m);
    EntriesFold(m);
    forall i | 0 <= i < |es|
      ensures Reads(item, put(es[i]), es[i])
    {
      assert es[i] in es;
      assert es[i] == (es[i].0, m[es[i].0]);
    }
    ManyReads(es, put, item, map[], AddPair, rest);
    var tail := Concat(es, put) + rest;
    assert PutMap(m, put) + rest == PutU64(|m|) + tail;
    U64Then(|m|, tail);
  }

  lemma MapSteady<V(!new)>(d: Str, q: Str, item: Str -> Option<((Str, V), Str)>)
    requires Steady(item) && GetMap(d, item).Some?
    ensures GetMap(d + q, item) == Some((GetMap(d, item).value.0, GetMap(d, item).value.1 + q))
  {
    hide GetU64;
    GetU64Steady();
    var (n, d1) := GetU64(d).value;
    GetManySteady(n, d1, q, item, map[], AddPair);
  }

  // ----- the five sections -----

  function PutBalance(p: (AccountId, Money)): Str { PutStr(p.0) + PutI64(p.1) }

  function GetBalance(d: Str): Option<((AccountId, Money), Str)> {
    var (a, d1) :- GetStr(d);
    var (v, d2) :- GetI64(d1);
    Some(((a, v), d2))
  }

  function PutResult(p: (Str, Result)): Str {
    PutStr(p.0) + PutBool(p.1.ok) + PutStr(p.1.err) + PutI64(p.1.balance)
  }

  function GetResult(d: Str): Option<((Str, Result), Str)> {
    var (k, d1) :- GetStr(d);
    var (ok, d2) :- GetBool(d1);
    var (err, d3) :- GetStr(d2);
    var (v, d4) :- GetI64(d3);
    Some(((k, Result(ok, err, v)), d4))
  }

  function PutDigest(p: (Str, nat)): Str { PutStr(p.0) + PutU64(p.1) }

  function GetDigest(d: Str): Option<((Str, nat), Str)> {
    var (k, d1) :- GetStr(d);
    var (v, d2) :- GetU64(d1);
    Some(((k, v), d2))
  }

  function PutReserve(p: (TxId, Reserve)): Str {
    PutStr(p.0) + PutStr(p.1.txId) + PutStr(p.1.account) + PutI64(p.1.amount)
  }

  function GetReserve(d: Str): Option<((TxId, Reserve), Str)> {
    var (k, d1) :- GetStr(d);
    var (t, d2) :- GetStr(d1);
    var (a, d3) :- GetStr(d2);
    var (v, d4) :- GetI64(d3);
    Some(((k, Reserve(t, a, v)), d4))
  }

  function PutEntry(e: Entry): Str { PutStr(e.account) + PutI64(e.amount) }

  function GetEntry(d: Str): Option<(Entry, Str)> {
    var (a, d1) :- GetStr(d);
    var (v, d2) :- GetI64(d1);
    Some((Entry(a, v), d2))
  }

  function PutTransaction(t: Transaction): Str {
    PutU64(t.number) + PutU64(t.op) + PutStr(t.key) + PutU64(t.ts.wall) + PutU64(t.ts.logical)
      + PutU64(|t.entries|) + Concat(t.entries, PutEntry)
  }

  /** Op and the logical clock are narrowed on the way back. */
  function GetTransaction(d: Str): Option<(Transaction, Str)> {
    var (number, d1) :- GetU64(d);
    var (op, d2) :- GetU64(d1);
    var (key, d3) :- GetStr(d2);
    var (wall, d4) :- GetU64(d3);
    var (logical, d5) :- GetU64(d4);
    var (n, d6) :- GetU64(d5);
    var (entries, d7) :- GetMany(n, d6, GetEntry, [], AddLast);
    Some((Transaction(number, op % 256, key, entries, Timestamp(wall, logical % 0x1_0000_0000)), d7))
  }

  function GetBalances(d: Str): Option<(map<AccountId, Money>, Str)> { GetMap(d, GetBalance) }

  function GetResults(d: Str): Option<(map<Str, Result>, Str)> { GetMap(d, GetResult) }

  function GetDigests(d: Str): Option<(map<Str, nat>, Str)> { GetMap(d, GetDigest) }

  function GetReserves(d: Str): Option<(map<TxId, Reserve>, Str)> { GetMap(d, GetReserve) }

  function GetHistory(d: Str): Option<(seq<Transaction>, Str)> {
    var (n, d1) :- GetU64(d);
    GetMany(n, d1, GetTransaction, [], AddLast)
  }

  ghost function PutLedger(l: Ledger): Str {
    PutU64(l.number) + PutMap(l.balances, PutBalance) + PutMap(l.applied, PutResult) + PutMap(l.digests, PutDigest)
      + PutMap(l.reserves, PutReserve) + PutU64(|l.history|) + Concat(l.history, PutTransaction)
  }

  function GetLedger(d: Str): Option<(Ledger, Str)> {
    var (number, d1) :- GetU64(d);
    var (balances, d2) :- GetBalances(d1);
    var (applied, d3) :- GetResults(d2);
    var (digests, d4) :- GetDigests(d3);
    var (reserves, d5) :- GetReserves(d4);
    var (history, d6) :- GetHistory(d5);
    Some((Ledger(balances, applied, digests, history, reserves, number), d6))
  }

  // ----- what fits in the format's 64-bit words -----

  ghost predicate Short(s: Str) { |s| < TWO_64 }

  ghost predicate TransactionFits(t: Transaction) {
    t.number < TWO_64 && Short(t.key) && |t.entries| < TWO_64
    && forall i :: 0 <= i < |t.entries| ==> Short(t.entries[i].account)
  }

  ghost predicate Fits(l: Ledger) {
    && l.number < TWO_64 && |l.balances| < TWO_64 && |l.applied| < TWO_64 && |l.digests| < TWO_64
    && |l.reserves| < TWO_64 && |l.history| < TWO_64
    && (forall a :: a in l.balances ==> Short(a))
    && (forall k :: k in l.applied ==> Short(k) && Short(l.applied[k].err))
    && (forall k :: k in l.digests ==> Short(k) && l.digests[k] < TWO_64)
    && (forall t :: t in l.reserves ==> Short(t) && Short(l.reserves[t].txId) && Short(l.reserves[t].account))
    && (forall i :: 0 <= i < |l.history| ==> TransactionFits(l.history[i]))
  }

  // ----- each item reads back -----

  lemma BalanceReads(p: (AccountId, Money))
    requires Short(p.0)
    ensures Reads(GetBalance, PutBalance(p), p)
  {
    hide GetStr, GetI64, PutStr, PutI64;
    StrReads(p.0);
    I64Reads(p.1);
    forall rest: Str
      ensures GetBalance(PutBalance(p) + rest) == Some((p, rest))
    {
      assert PutBalance(p) + rest == PutStr(p.0) + (PutI64(p.1) + rest);
    }
  }

  lemma ResultReads(p: (Str, Result))
    requires Short(p.0) && Short(p.1.err)
    ensures Reads(GetResult, PutResult(p), p)
  {
    hide GetStr, GetI64, GetBool, PutStr, PutI64, PutBool;
    StrReads(p.0);
    BoolReads(p.1.ok);
    StrReads(p.1.err);
    I64Reads(p.1.balance);
    forall rest: Str
      ensures GetResult(PutResult(p) + rest) == Some((p, rest))
    {
      var r2 := PutI64(p.1.balance) + rest;
      var r1 := PutStr(p.1.err) + r2;
      assert PutResult(p) + rest == PutStr(p.0) + (PutBool(p.1.ok) + r1);
    }
  }

  lemma DigestReads(p: (Str, nat))
    requires Short(p.0) && p.1 < TWO_64
    ensures Reads(GetDigest, PutDigest(p), p)
  {
    hide GetStr, GetU64, PutStr, PutU64;
    StrReads(p.0);
    U64Reads(p.1);
    forall rest: Str
      ensures GetDigest(PutDigest(p) + rest) == Some((p, rest))
    {
      assert PutDigest(p) + rest == PutStr(p.0) + (PutU64(p.1) + rest);
    }
  }

  lemma ReserveReads(p: (TxId, Reserve))
    requires Short(p.0) && Short(p.1.txId) && Short(p.1.account)
    ensures Reads(GetReserve, PutReserve(p), p)
  {
    hide GetStr, GetI64, PutStr, PutI64;
    StrReads(p.0);
    StrReads(p.1.txId);
    StrReads(p.1.account);
    I64Reads(p.1.amount);
    forall rest: Str
      ensures GetReserve(PutReserve(p) + rest) == Some((p, rest))
    {
      var r2 := PutI64(p.1.amount) + rest;
      var r1 := PutStr(p.1.account) + r2;
      assert PutReserve(p) + rest == PutStr(p.0) + (PutStr(p.1.txId) + r1);
    }
  }

  lemma EntryReads(e: Entry)
    requires Short(e.account)
    ensures Reads(GetEntry, PutEntry(e), e)
  {
    hide GetStr, GetI64, PutStr, PutI64;
    StrReads(e.account);
    I64Reads(e.amount);
    forall rest: Str
      ensures GetEntry(PutEntry(e) + rest) == Some((e, rest))
    {
      assert PutEntry(e) + rest == PutStr(e.account) + (PutI64(e.amount) + rest);
    }
  }

  lemma TransactionReads(t: Transaction)
    requires TransactionFits(t)
    ensures Reads(GetTransaction, PutTransaction(t), t)
  {
    hide GetStr, GetU64, PutStr, PutU64, GetMany, Concat, GetEntry, PutEntry, Reads;
    forall rest: Str
      ensures GetTransaction(PutTransaction(t) + rest) == Some((t, rest))
    {
      TransactionReadsThen(t, rest);
    }
    ReadsFrom(GetTransaction, PutTransaction(t), t);
  }

  lemma ReadsFrom<T(!new)>(p: Str -> Option<(T, Str)>, bytes: Str, x: T)
    requires forall rest: Str :: p(bytes + rest) == Some((x, rest))
    ensures Reads(p, bytes, x)
  {
  }

  lemma TransactionReadsThen(t: Transaction, rest: Str)
    requires TransactionFits(t)
    ensures GetTransaction(PutTransaction(t) + rest) == Some((t, rest))
  {
    hide GetStr, GetU64, PutStr, PutU64, GetMany, Concat, GetEntry, PutEntry, FoldLeft;
    var r6 := Concat(t.entries, PutEntry) + rest;
    var r5 := PutU64(|t.entries|) + r6;
    var r4 := PutU64(t.ts.logical) + r5;
    var r3 := PutU64(t.ts.wall) + r4;
    var r2 := PutStr(t.key) + r3;
    var r1 := PutU64(t.op) + r2;
    assert PutTransaction(t) + rest == PutU64(t.number) + r1;
    U64Then(t.number, r1);
    U64Then(t.op, r2);
    StrReads(t.key);
    U64Then(t.ts.wall, r4);
    U64Then(t.ts.logical, r5);
    U64Then(|t.entries|, r6);
    forall i | 0 <= i < |t.entries|
      ensures Reads(GetEntry, PutEntry(t.entries[i]), t.entries[i])
    {
      EntryReads(t.entries[i]);
    }
    ManyReads(t.entries, PutEntry, GetEntry, [], AddLast, rest);
    AddLastFold([], t.entries);
    assert [] + t.entries == t.entries;
  }

  /** Decoding inverts encoding exactly, whatever follows. */
  lemma LedgerReads(l: Ledger, rest: Str)
    requires Fits(l)
    ensures GetLedger(PutLedger(l) + rest) == Some((l, rest))
  {
    hide GetU64, PutU64, GetMany, Concat, GetMap, PutMap, FoldLeft, GetBalance, GetResult, GetDigest, GetReserve,
         GetTransaction, TransactionFits, Reads;
    var r6 := Concat(l.history, PutTransaction) + rest;
    var r5 := PutU64(|l.history|) + r6;
    var r4 := PutMap(l.reserves, PutReserve) + r5;
    var r3 := PutMap(l.digests, PutDigest) + r4;
    var r2 := PutMap(l.applied, PutResult) + r3;
    var r1 := PutMap(l.balances, PutBalance) + r2;
    assert PutLedger(l) + rest == PutU64(l.number) + r1;
    U64Then(l.number, r1);
    U64Then(|l.history|, r6);
    SectionsRead(l, r2, r3, r4, r5);
    forall i | 0 <= i < |l.history|
      ensures Reads(GetTransaction, PutTransaction(l.history[i]), l.history[i])
    {
      TransactionReads(l.history[i]);
    }
    ManyReads(l.history, PutTransaction, GetTransaction, [], AddLast, rest);
    AddLastFold([], l.history);
    assert [] + l.history == l.history;
  }

  lemma SectionsRead(l: Ledger, r2: Str, r3: Str, r4: Str, r5: Str)
    requires Fits(l)
    ensures GetMap(PutMap(l.balances, PutBalance) + r2, GetBalance) == Some((l.balances, r2))
    ensures GetMap(PutMap(l.applied, PutResult) + r3, GetResult) == Some((l.applied, r3))
    ensures GetMap(PutMap(l.digests, PutDigest) + r4, GetDigest) == Some((l.digests, r4))
    ensures GetMap(PutMap(l.reserves, PutReserve) + r5, GetReserve) == Some((l.reserves, r5))
  {
    hide GetMap, PutMap, GetBalance, GetResult, GetDigest, GetReserve, TransactionFits, Reads;
    forall k | k in l.balances ensures Reads(GetBalance, PutBalance((k, l.balances[k])), (k, l.balances[k])) {
      BalanceReads((k, l.balances[k]));
    }
    forall k | k in l.applied ensures Reads(GetResult, PutResult((k, l.applied[k])), (k, l.applied[k])) {
      ResultReads((k, l.applied[k]));
    }
    forall k | k in l.digests ensures Reads(GetDigest, PutDigest((k, l.digests[k])), (k, l.digests[k])) {
      DigestReads((k, l.digests[k]));
    }
    forall k | k in l.reserves ensures Reads(GetReserve, PutReserve((k, l.reserves[k])), (k, l.reserves[k])) {
      ReserveReads((k, l.reserves[k]));
    }
    MapReads(l.balances, PutBalance, GetBalance, r2);
    MapReads(l.applied, PutResult, GetResult, r3);
    MapReads(l.digests, PutDigest, GetDigest, r4);
    MapReads(l.reserves, PutReserve, GetReserve, r5);
  }

  // ----- truncation -----

  lemma ItemsSteady()
    ensures Steady(GetBalance) && Steady(GetResult) && Steady(GetDigest) && Steady(GetReserve) && Steady(GetEntry)
  {
    hide GetStr, GetU64, GetBool, GetI64;
    GetStrSteady();
    GetU64Steady();
    GetBoolSteady();
    GetI64Steady();
  }

  lemma TransactionSteady()
    ensures Steady(GetTransaction)
  {
    hide GetStr, GetU64, GetMany, GetEntry;
    GetStrSteady();
    GetU64Steady();
    ItemsSteady();
    forall d: Str, q: Str | GetTransaction(d).Some?
      ensures GetTransaction(d + q) == Some((GetTransaction(d).value.0, GetTransaction(d).value.1 + q))
    {
      var (number, d1) := GetU64(d).value;
      var (op, d2) := GetU64(d1).value;
      var (key, d3) := GetStr(d2).value;
      var (wall, d4) := GetU64(d3).value;
      var (logical, d5) := GetU64(d4).value;
      var (n, d6) := GetU64(d5).value;
      GetManySteady(n, d6, q, GetEntry, [], AddLast);
    }
  }

  lemma LedgerSteady()
    ensures Steady(GetLedger)
  {
    hide GetU64, GetMany, GetMap, GetBalance, GetResult, GetDigest, GetReserve, GetTransaction, Steady;
    forall d: Str, q: Str | GetLedger(d).Some?
      ensures GetLedger(d + q) == Some((GetLedger(d).value.0, GetLedger(d).value.1 + q))
    {
      LedgerSteadyAt(d, q);
    }
    SteadyFrom(GetLedger);
  }

  lemma SteadyFrom<T(!new)>(p: Str -> Option<(T, Str)>)
    requires forall d: Str, q: Str :: p(d).Some? ==> p(d + q) == Some((p(d).value.0, p(d).value.1 + q))
    ensures Steady(p)
  {
  }

  lemma LedgerSteadyAt(d: Str, q: Str)
    requires GetLedger(d).Some?
    ensures GetLedger(d + q) == Some((GetLedger(d).value.0, GetLedger(d).value.1 + q))
  {
    hide GetU64, GetMany, GetMap, GetBalance, GetResult, GetDigest, GetReserve, GetTransaction;
    GetU64Steady();
    ItemsSteady();
    TransactionSteady();
    var (number, d1) := GetU64(d).value;
    MapSteady(d1, q, GetBalance);
    var (balances, d2) := GetMap(d1, GetBalance).value;
    MapSteady(d2, q, GetResult);
    var (applied, d3) := GetMap(d2, GetResult).value;
    MapSteady(d3, q, GetDigest);
    var (digests, d4) := GetMap(d3, GetDigest).value;
    MapSteady(d4, q, GetReserve);
    var (reserves, d5) := GetMap(d4, GetReserve).value;
    var (n, d6) := GetU64(d5).value;
    GetManySteady(n, d6, q, GetTransaction, [], AddLast);
  }

  /** All or nothing: every strict prefix of a snapshot is refused. */
  lemma LedgerPrefixRefused(l: Ledger, cut: nat)
    requires Fits(l) && cut < |PutLedger(l)|
    ensures GetLedger(PutLedger(l)[..cut]) == None
  {
    hide GetLedger, PutLedger, Fits;
    forall rest: Str
      ensures GetLedger(PutLedger(l) + rest) == Some((l, rest))
    {
      LedgerReads(l, rest);
    }
    LedgerSteady();
    PrefixRefused(GetLedger, PutLedger(l), l, cut);
  }
}
