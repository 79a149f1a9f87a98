/** CRC-32: the table-driven form of the ZIP writer against the bit-by-bit form of section 8 of
    RFC 1952. */
module Crc {
  import opened Bytes

  /** The 32-bit register. */
  datatype Reg = Reg(bits: bv32)

  const POLY := Reg(0xedb88320)
  const ONES := Reg(0xffffffff)

  function Xor(a: Reg, b: Reg): Reg {
    Reg(a.bits ^ b.bits)
  }

  function Widen(b: Byte): Reg {
    Reg(b as bv32)
  }

  function LowByte(c: Reg): Byte {
    (c.bits & 0xff) as bv8
  }

  function RightByte(c: Reg): Reg {
    Reg(c.bits >> 8)
  }

  predicate Odd(c: Reg) {
    c.bits & 1 == 1
  }

  function Right(c: Reg): Reg {
    Reg(c.bits >> 1)
  }

  /** One bit of the reflected division. */
  function Shift(c: Reg): Reg {
    if Odd(c) then Xor(POLY, Right(c)) else Right(c)
  }

  function Shifts(c: Reg, n: nat): Reg
    decreases n
  {
    if n == 0 then c else Shifts(Shift(c), n - 1)
  }

  // ---- the bit-by-bit definition -------------------------------------------------------

  function BitwiseByte(c: Reg, b: Byte): Reg {
    Shifts(Xor(c, Widen(b)), 8)
  }

  function BitwiseRun(c: Reg, bytes: seq<Byte>): Reg
    decreases |bytes|
  {
    if bytes == [] then c else BitwiseRun(BitwiseByte(c, bytes[0]), bytes[1..])
  }

  function Bitwise(bytes: seq<Byte>): Reg {
    Xor(BitwiseRun(ONES, bytes), ONES)
  }

  /** The check value of the CRC catalogue: the checksum of the nine digits "123456789". */
  lemma CheckValue()
    ensures Bitwise([0x31, 0x32, 0x33, 0x34, 0x35, 0x36, 0x37, 0x38, 0x39]) == Reg(0xcbf43926)
  {
    hide BitwiseByte, BitwiseRun;
    var digits: seq<Byte> := [0x31, 0x32, 0x33, 0x34, 0x35, 0x36, 0x37, 0x38, 0x39];
    FirstFive();
    LastFour();
    assert digits[0..] == digits;
    Step(Reg(0xffffffff), digits, 0);
    Step(Reg(0x7c231048), digits, 1);
    Step(Reg(0xb0acbb32), digits, 2);
    Step(Reg(0x77b79c2d), digits, 3);
    Step(Reg(0x641c1f5c), digits, 4);
    Step(Reg(0x340ac5e3), digits, 5);
    Step(Reg(0xf68d2c9e), digits, 6);
    Step(Reg(0xaffc9660), digits, 7);
    Step(Reg(0x651f2550), digits, 8);
    NoBytes(Reg(0x340bc6d9));
    assert digits[9..] == [];
  }

  lemma FirstFive()
    ensures BitwiseByte(Reg(0xffffffff), 0x31) == Reg(0x7c231048)
    ensures BitwiseByte(Reg(0x7c231048), 0x32) == Reg(0xb0acbb32)
    ensures BitwiseByte(Reg(0xb0acbb32), 0x33) == Reg(0x77b79c2d)
    ensures BitwiseByte(Reg(0x77b79c2d), 0x34) == Reg(0x641c1f5c)
    ensures BitwiseByte(Reg(0x641c1f5c), 0x35) == Reg(0x340ac5e3)
  {
  }

  lemma LastFour()
    ensures BitwiseByte(Reg(0x340ac5e3), 0x36) == Reg(0xf68d2c9e)
    ensures BitwiseByte(Reg(0xf68d2c9e), 0x37) == Reg(0xaffc9660)
    ensures BitwiseByte(Reg(0xaffc9660), 0x38) == Reg(0x651f2550)
    ensures BitwiseByte(Reg(0x651f2550), 0x39) == Reg(0x340bc6d9)
  {
  }

  lemma NoBytes(c: Reg)
    ensures BitwiseRun(c, []) == c
  {
  }

  lemma Step(c: Reg, bytes: seq<Byte>, i: nat)
    requires i < |bytes|
    ensures BitwiseRun(c, bytes[i..]) == BitwiseRun(BitwiseByte(c, bytes[i]), bytes[i + 1..])
  {
    hide BitwiseByte;
    assert bytes[i..][1..] == bytes[i + 1..];
  }

  // ---- bit-vector facts ----------------------------------------------------------------

  lemma XorTwice(a: Reg, b: Reg, c: Reg)
    ensures Xor(Xor(c, a), Xor(c, b)) == Xor(a, b)
  {
  }

  lemma XorAssociates(a: Reg, b: Reg, c: Reg)
    ensures Xor(c, Xor(a, b)) == Xor(Xor(c, a), b)
  {
  }

  lemma XorSwaps(a: Reg, b: Reg, c: Reg)
    ensures Xor(c, Xor(a, b)) == Xor(a, Xor(c, b))
  {
  }

  lemma XorRight(a: Reg, b: Reg)
    ensures Right(Xor(a, b)) == Xor(Right(a), Right(b))
  {
  }

  lemma XorOdd(a: Reg, b: Reg)
    ensures Odd(Xor(a, b)) <==> Odd(a) != Odd(b)
  {
    LowBit(a.bits, b.bits);
  }

  lemma LowBit(a: bv32, b: bv32)
    ensures (a ^ b) & 1 == (a & 1) ^ (b & 1)
    ensures (a & 1 == 0 || a & 1 == 1) && (b & 1 == 0 || b & 1 == 1)
  {
  }

  lemma ShiftXor(a: Reg, b: Reg)
    ensures Shift(Xor(a, b)) == Xor(Shift(a), Shift(b))
  {
    hide Xor, Right, Odd;
    XorOdd(a, b);
    XorRight(a, b);
    XorTwice(Right(a), Right(b), POLY);
    XorAssociates(Right(a), Right(b), POLY);
    XorSwaps(Right(a), Right(b), POLY);
  }

  lemma DroppedBit(a: bv32, b: bv32)
    ensures a >> 1 == b >> 1 && a & 1 == b & 1 ==> a == b
    ensures 0xedb88320 ^ (a >> 1) != b >> 1
    ensures a & 1 == 0 || a & 1 == 1
  {
  }

  lemma RightLoses(a: Reg, b: Reg)
    ensures Right(a) == Right(b) && Odd(a) == Odd(b) ==> a == b
    ensures Xor(POLY, Right(a)) != Right(b)
  {
    DroppedBit(a.bits, b.bits);
    DroppedBit(b.bits, a.bits);
  }

  lemma XorCancels(a: Reg, b: Reg, c: Reg)
    ensures Xor(c, a) == Xor(c, b) ==> a == b
    ensures Xor(a, c) == Xor(b, c) ==> a == b
  {
    XorBitsCancel(a.bits, b.bits, c.bits);
  }

  lemma XorBitsCancel(a: bv32, b: bv32, c: bv32)
    ensures c ^ a == c ^ b ==> a == b
    ensures a ^ c == b ^ c ==> a == b
  {
  }

  lemma ShiftInjective(a: Reg, b: Reg)
    ensures Shift(a) == Shift(b) ==> a == b
  {
    hide Xor, Right, Odd;
    RightLoses(a, b);
    RightLoses(b, a);
    XorCancels(Right(a), Right(b), POLY);
  }

  lemma WidenInjective(x: Byte, y: Byte)
    ensures Widen(x) == Widen(y) ==> x == y
  {
  }

  lemma XorLowByte(c: bv32, b: Byte)
    ensures (c ^ (b as bv32)) >> 8 == c >> 8
  {
  }

  lemma TwoBits(x: bv32)
    ensures (x >> 1) >> 1 == x >> 2
  {
  }

  lemma FourBits(x: bv32)
    ensures (x >> 2) >> 2 == x >> 4
  {
  }

  lemma EightBits(x: bv32)
    ensures (x >> 4) >> 4 == x >> 8
  {
  }

  lemma RightTwice(x: bv32)
    ensures Right(Right(Reg(x))) == Reg(x >> 2)
  {
    TwoBits(x);
  }

  lemma RightFour(x: bv32)
    ensures Right(Right(Right(Right(Reg(x))))) == Reg(x >> 4)
  {
    hide Right;
    RightTwice(x);
    RightTwice(x >> 2);
    FourBits(x);
  }

  lemma RightEight(x: bv32)
    ensures Right(Right(Right(Right(Right(Right(Right(Right(Reg(x))))))))) == Reg(x >> 8)
  {
    hide Right;
    RightFour(x);
    RightFour(x >> 4);
    EightBits(x);
  }

  lemma RightByteOf(x: bv32)
    ensures RightByte(Reg(x)) == Reg(x >> 8)
  {
  }

  // ---- eight shifts at once ------------------------------------------------------------

  lemma {:induction false} ShiftsXor(a: Reg, b: Reg, n: nat)
    ensures Shifts(Xor(a, b), n) == Xor(Shifts(a, n), Shifts(b, n))
    decreases n
  {
    hide Shift, Xor;
    if n > 0 {
      ShiftXor(a, b);
      ShiftsXor(Shift(a), Shift(b), n - 1);
    }
  }

  lemma ShiftsEight(c: Reg)
    ensures Shifts(c, 8) == Shift(Shift(Shift(Shift(Shift(Shift(Shift(Shift(c))))))))
  {
    hide Shift;
    var c1 := Shift(c);
    var c2 := Shift(c1);
    var c3 := Shift(c2);
    var c4 := Shift(c3);
    var c5 := Shift(c4);
    var c6 := Shift(c5);
    var c7 := Shift(c6);
    assert Shifts(c, 8) == Shifts(c1, 7) == Shifts(c2, 6) == Shifts(c3, 5) == Shifts(c4, 4);
    assert Shifts(c4, 4) == Shifts(c5, 3) == Shifts(c6, 2) == Shifts(c7, 1) == Shifts(Shift(c7), 0);
  }

  predicate LowClear(c: Reg, mask: bv32) {
    c.bits & mask == 0
  }

  /** While the low bits are clear, a shift only moves right. */
  lemma ClearShift(h: Reg)
    ensures LowClear(h, 0xff) ==> !Odd(h) && LowClear(Right(h), 0x7f)
    ensures LowClear(h, 0x7f) ==> !Odd(h) && LowClear(Right(h), 0x3f)
    ensures LowClear(h, 0x3f) ==> !Odd(h) && LowClear(Right(h), 0x1f)
    ensures LowClear(h, 0x1f) ==> !Odd(h) && LowClear(Right(h), 0x0f)
    ensures LowClear(h, 0x0f) ==> !Odd(h) && LowClear(Right(h), 0x07)
    ensures LowClear(h, 0x07) ==> !Odd(h) && LowClear(Right(h), 0x03)
    ensures LowClear(h, 0x03) ==> !Odd(h) && LowClear(Right(h), 0x01)
    ensures LowClear(h, 0x01) ==> !Odd(h)
  {
  }

  /** A register whose low byte is clear just moves right. */
  lemma HighBitsMove(h: Reg)
    requires LowClear(h, 0xff)
    ensures Shifts(h, 8) == RightByte(h)
  {
    hide LowClear, Right, Shifts, RightByte;
    RightEight(h.bits);
    RightByteOf(h.bits);
    EightShiftsRight(h);
    assert h == Reg(h.bits);
  }

  lemma EightShiftsRight(h: Reg)
    requires LowClear(h, 0xff)
    ensures Shifts(h, 8) == Right(Right(Right(Right(Right(Right(Right(Right(h))))))))
  {
    hide LowClear, Odd, Right, Shifts;
    ShiftsEight(h);
    var h1 := Right(h);
    var h2 := Right(h1);
    var h3 := Right(h2);
    var h4 := Right(h3);
    var h5 := Right(h4);
    var h6 := Right(h5);
    var h7 := Right(h6);
    ClearShift(h);
    ClearShift(h1);
    ClearShift(h2);
    ClearShift(h3);
    ClearShift(h4);
    ClearShift(h5);
    ClearShift(h6);
    ClearShift(h7);
  }

  function High(c: Reg): Reg {
    Reg(c.bits & 0xffffff00)
  }

  lemma SplitReg(c: Reg)
    ensures c == Xor(Widen(LowByte(c)), High(c))
  {
  }

  lemma HighIsClear(c: Reg)
    ensures LowClear(High(c), 0xff)
  {
  }

  lemma HighKeepsHigh(c: Reg)
    ensures RightByte(High(c)) == RightByte(c)
  {
  }

  /** Eight shifts act on the low byte alone, and the rest moves right. */
  lemma TableStep(c: Reg)
    ensures Shifts(c, 8) == Xor(Shifts(Widen(LowByte(c)), 8), RightByte(c))
  {
    hide Shifts, Xor, Widen, LowByte, High, RightByte, LowClear;
    SplitReg(c);
    HighIsClear(c);
    HighKeepsHigh(c);
    ShiftsXor(Widen(LowByte(c)), High(c), 8);
    HighBitsMove(High(c));
  }

  // ---- no byte can change unnoticed ----------------------------------------------------

  lemma {:induction false} ShiftsInjective(a: Reg, b: Reg, n: nat)
    requires Shifts(a, n) == Shifts(b, n)
    ensures a == b
    decreases n
  {
    hide Shift;
    if n > 0 {
      ShiftsInjective(Shift(a), Shift(b), n - 1);
      ShiftInjective(a, b);
    }
  }

  lemma ByteInjective(a: Reg, b: Reg, x: Byte, y: Byte)
    ensures BitwiseByte(a, x) == BitwiseByte(b, x) ==> a == b
    ensures BitwiseByte(a, x) == BitwiseByte(a, y) ==> x == y
  {
    hide Shifts, Xor, Widen;
    if BitwiseByte(a, x) == BitwiseByte(b, x) {
      ShiftsInjective(Xor(a, Widen(x)), Xor(b, Widen(x)), 8);
      XorCancels(a, b, Widen(x));
    }
    if BitwiseByte(a, x) == BitwiseByte(a, y) {
      ShiftsInjective(Xor(a, Widen(x)), Xor(a, Widen(y)), 8);
      XorCancels(Widen(x), Widen(y), a);
      WidenInjective(x, y);
    }
  }

  lemma {:induction false} RunInjective(a: Reg, b: Reg, bytes: seq<Byte>)
    requires BitwiseRun(a, bytes) == BitwiseRun(b, bytes)
    ensures a == b
    decreases |bytes|
  {
    hide BitwiseByte;
    if bytes != [] {
      RunInjective(BitwiseByte(a, bytes[0]), BitwiseByte(b, bytes[0]), bytes[1..]);
      ByteInjective(a, b, bytes[0], bytes[0]);
    }
  }

  lemma {:induction false} RunAppend(c: Reg, xs: seq<Byte>, ys: seq<Byte>)
    ensures BitwiseRun(c, xs + ys) == BitwiseRun(BitwiseRun(c, xs), ys)
    decreases |xs|
  {
    hide BitwiseByte;
    if xs == [] {
      assert xs + ys == ys;
    } else {
      assert (xs + ys)[1..] == xs[1..] + ys;
      RunAppend(BitwiseByte(c, xs[0]), xs[1..], ys);
    }
  }

  lemma RunThrough(before: seq<Byte>, x: Byte, after: seq<Byte>)
    ensures BitwiseRun(ONES, before + [x] + after) == BitwiseRun(BitwiseByte(BitwiseRun(ONES, before), x), after)
  {
    hide BitwiseByte;
    assert before + [x] + after == before + ([x] + after);
    RunAppend(ONES, before, [x] + after);
    assert ([x] + after)[1..] == after;
  }

  /** Changing one byte always changes the checksum. */
  lemma OneByteChangeIsSeen(before: seq<Byte>, x: Byte, y: Byte, after: seq<Byte>)
    ensures Bitwise(before + [x] + after) == Bitwise(before + [y] + after) <==> x == y
  {
    hide BitwiseByte, Xor, BitwiseRun;
    if Bitwise(before + [x] + after) == Bitwise(before + [y] + after) {
      XorCancels(BitwiseRun(ONES, before + [x] + after), BitwiseRun(ONES, before + [y] + after), ONES);
      RunThrough(before, x, after);
      RunThrough(before, y, after);
      var c := BitwiseRun(ONES, before);
      RunInjective(BitwiseByte(c, x), BitwiseByte(c, y), after);
      ByteInjective(c, c, x, y);
    }
  }

  // ---- the table-driven form -----------------------------------------------------------

  ghost predicate EntryOk(table: seq<Reg>, b: Byte)
    requires |table| == 256
  {
    table[b as int] == Shifts(Widen(b), 8)
  }

  ghost predicate IsTable(table: seq<Reg>) {
    |table| == 256 && forall b: Byte :: EntryOk(table, b)
  }

  method TableEntry(n: Byte) returns (c: Reg)
    ensures c == Shifts(Widen(n), 8)
  {
    hide Shift, Widen;
    c := Widen(n);
    for k := 0 to 8
      invariant Shifts(c, 8 - k) == Shifts(Widen(n), 8)
    {
      c := Shift(c);
    }
  }

  /** The table, one entry per byte value. */
  method BuildTable() returns (table: seq<Reg>)
    ensures IsTable(table)
  {
    hide Shifts, Widen;
    table := [];
    for n := 0 to 256
      invariant |table| == n && forall m :: 0 <= m < n ==> table[m] == Shifts(Widen(m as bv8), 8)
    {
      var entry := TableEntry(n as bv8);
      table := table + [entry];
    }
    forall b: Byte ensures EntryOk(table, b) { IntAndBack(b); }
  }

  lemma IntAndBack(b: Byte)
    ensures 0 <= b as int < 256 && (b as int) as bv8 == b
  {
  }

  /** `crc32`: one table look-up per byte computes the bit-by-bit checksum. */
  method Crc32(table: seq<Reg>, bytes: seq<Byte>) returns (crc: Reg)
    requires IsTable(table)
    ensures crc == Bitwise(bytes)
  {
    hide IsTable, BitwiseByte, Xor, RightByte, LowByte, Widen;
    var c := ONES;
    assert bytes[0..] == bytes;
    for i := 0 to |bytes|
      invariant BitwiseRun(c, bytes[i..]) == BitwiseRun(ONES, bytes)
    {
      LookUp(table, c, bytes[i]);
      assert bytes[i..][1..] == bytes[i + 1..];
      c := Xor(table[LowByte(Xor(c, Widen(bytes[i]))) as int], RightByte(c));
    }
    crc := Xor(c, ONES);
  }

  lemma LookUp(table: seq<Reg>, c: Reg, b: Byte)
    requires IsTable(table)
    ensures |table| == 256
    ensures Xor(table[LowByte(Xor(c, Widen(b))) as int], RightByte(c)) == BitwiseByte(c, b)
  {
    hide Shifts;
    var x := Xor(c, Widen(b));
    XorLowByte(c.bits, b);
    assert RightByte(x) == RightByte(c);
    TableStep(x);
    assert EntryOk(table, LowByte(x));
  }
}
