/** Bytes, byte strings and optional values, shared by every layer of the model. */
module Bytes {

  type Byte = x: int | 0 <= x < 256

  /** A Go string or []byte: an immutable sequence of bytes. */
  type Str = seq<Byte>

  const TWO_63 := 0x8000_0000_0000_0000
  const TWO_64 := 0x1_0000_0000_0000_0000

  type U32 = x: int | 0 <= x < 0x1_0000_0000
  type U64 = x: int | 0 <= x < TWO_64
  type I64 = x: int | -TWO_63 <= x < TWO_63

  /** Two's complement: the int64 a sum or difference leaves behind. */
  function Wrap(x: int): (r: I64)
    ensures -TWO_63 <= x < TWO_63 ==> r == x
  {
    (x + TWO_63) % TWO_64 - TWO_63
  }

  /** Wrapping early or late gives the same int64. */
  lemma WrapAdd(x: int, y: int)
    ensures Wrap(Wrap(x) + y) == Wrap(x + y)
  {
  }

  /** The low n bytes of x, least significant first. */
  function LittleEndian(x: nat, n: nat): (r: Str)
    ensures |r| == n
  {
    if n == 0 then [] else [x % 256] + LittleEndian(x / 256, n - 1)
  }

  function LittleValue(s: Str): nat {
    if s == [] then 0 else s[0] + 256 * LittleValue(s[1..])
  }

  function Pow256(n: nat): nat { if n == 0 then 1 else 256 * Pow256(n - 1) }

  lemma Pow256Words()
    ensures Pow256(4) == 0x1_0000_0000 && Pow256(8) == TWO_64
  {
    assert Pow256(4) == 0x1_0000_0000;
    assert Pow256(6) == 0x1_0000_0000_0000;
  }

  /** Reading back the n low bytes gives the number, if it fits in them. */
  lemma {:induction false} LittleRoundTrip(x: nat, n: nat)
    requires x < Pow256(n)
    ensures LittleValue(LittleEndian(x, n)) == x
    decreases n
  {
    if n > 0 {
      LittleRoundTrip(x / 256, n - 1);
      assert LittleEndian(x, n)[1..] == LittleEndian(x / 256, n - 1);
    }
  }

  /** The n bytes read stand for a number that fits in them. */
  lemma {:induction false} LittleBound(s: Str)
    ensures LittleValue(s) < Pow256(|s|)
    decreases |s|
  {
    if s != [] {
      LittleBound(s[1..]);
    }
  }

  datatype Option<+T> = None | Some(value: T) {
    predicate IsFailure() { None? }

    function PropagateFailure<U>(): Option<U>
      requires None?
    {
      None
    }

    function Extract(): T
      requires Some?
    {
      value
    }
  }

  function Min(a: int, b: int): int { if a <= b then a else b }

  function Max(a: int, b: int): int { if a <= b then b else a }

  /** The bytes of an ASCII literal. */
  function Ascii(s: string): (r: Str)
    ensures |r| == |s|
  {
    seq(|s|, i requires 0 <= i < |s| => (s[i] as int) % 256)
  }
}
