/** Bytes and the numbers they stand for, bit by bit. */
module Bytes {

  type Byte = bv8

  /** The bits of a byte, lowest first. */
  datatype Bits = Bits(b0: bool, b1: bool, b2: bool, b3: bool, b4: bool, b5: bool, b6: bool, b7: bool)

  function BitsOf(b: Byte): Bits {
    Bits(b & 1 != 0, b & 2 != 0, b & 4 != 0, b & 8 != 0, b & 16 != 0, b & 32 != 0, b & 64 != 0, b & 128 != 0)
  }

  function Packed(s: Bits): Byte {
    (if s.b0 then 1 else 0) | (if s.b1 then 2 else 0) | (if s.b2 then 4 else 0) | (if s.b3 then 8 else 0)
    | (if s.b4 then 16 else 0) | (if s.b5 then 32 else 0) | (if s.b6 then 64 else 0) | (if s.b7 then 128 else 0)
  }

  function Weight(s: Bits): nat {
    (if s.b0 then 1 else 0) + (if s.b1 then 2 else 0) + (if s.b2 then 4 else 0) + (if s.b3 then 8 else 0)
    + (if s.b4 then 16 else 0) + (if s.b5 then 32 else 0) + (if s.b6 then 64 else 0) + (if s.b7 then 128 else 0)
  }

  /** The eight lowest binary digits of a number. */
  function Binary(n: nat): Bits {
    Bits(Odd(n), Odd(Half(n, 1)), Odd(Half(n, 2)), Odd(Half(n, 3)),
         Odd(Half(n, 4)), Odd(Half(n, 5)), Odd(Half(n, 6)), Odd(Half(n, 7)))
  }

  predicate Odd(n: nat) {
    n % 2 == 1
  }

  /** `n` shifted right by `times`. */
  function Half(n: nat, times: nat): nat {
    if times == 0 then n else Half(n, times - 1) / 2
  }

  /** The low byte of a number, `n & 0xff`. */
  function ByteOf(n: nat): Byte {
    Packed(Binary(n))
  }

  function Val(b: Byte): nat {
    Weight(BitsOf(b))
  }

  lemma PackedBack(s: Bits)
    ensures BitsOf(Packed(s)) == s
  {
  }

  lemma HalfStep(n: nat, times: nat)
    ensures Half(n, times) == 2 * Half(n, times + 1) + if Odd(Half(n, times)) then 1 else 0
  {
  }

  lemma BinaryWeight(n: nat)
    ensures Weight(Binary(n)) == n % 256
  {
    hide Half, Odd;
    HalfStep(n, 0);
    HalfStep(n, 1);
    HalfStep(n, 2);
    HalfStep(n, 3);
    HalfStep(n, 4);
    HalfStep(n, 5);
    HalfStep(n, 6);
    HalfStep(n, 7);
    HalfNone(n);
    var w, q := Weight(Binary(n)), Half(n, 8);
    assert n == w + 256 * q;
    assert w < 256;
    Remainder(n, w, q);
  }

  lemma HalfNone(n: nat)
    ensures Half(n, 0) == n
  {
  }

  lemma Remainder(n: nat, w: nat, q: nat)
    requires n == w + 256 * q && w < 256
    ensures n % 256 == w
  {
  }

  lemma ByteBack(n: nat)
    ensures Val(ByteOf(n)) == n % 256
  {
    hide BitsOf, Packed, Weight, Binary;
    PackedBack(Binary(n));
    BinaryWeight(n);
  }

  lemma ByteBound(b: Byte)
    ensures Val(b) < 256
  {
    hide BitsOf;
  }
}
