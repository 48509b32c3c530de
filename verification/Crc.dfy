/** CRC-32 as the cache validator computes it, and as RFC 1952 defines it. */
module Crc {
  import opened Folding

  const POLYNOMIAL: bv32 := 0xedb8_8320

  // ------------------------------------------------------------------ bit by bit

  function Xor(a: bv32, b: bv32): bv32 { a ^ b }

  function Shift(c: bv32): bv32 { c >> 1 }

  /** The polynomial, if the outgoing bit is set. */
  function Feedback(c: bv32): bv32 {
    if c & 1 == 1 then POLYNOMIAL else 0
  }

  /** One bit of the reflected CRC. */
  function BitStep(c: bv32): bv32 {
    Xor(Shift(c), Feedback(c))
  }

  function Mix(c: bv32, b: bv8): bv32 { c ^ (b as bv32) }

  function Bits8(c: bv32): bv32 { Iterate(BitStep, c, 8) }

  /** One byte, bit by bit. */
  function ByteStep(c: bv32, b: bv8): bv32 {
    Bits8(Mix(c, b))
  }

  /** The running CRC after `bytes`, bit by bit. */
  function Running(c: bv32, bytes: seq<bv8>): bv32 {
    Fold(ByteStep, c, bytes)
  }

  const ALL_ONES: bv32 := 0xffff_ffff

  function Inverted(c: bv32): bv32 { !c }

  /** The CRC-32 of section 8 of RFC 1952. */
  function Crc32(bytes: seq<bv8>): bv32 {
    Inverted(Running(ALL_ONES, bytes))
  }

  lemma RunningConcat(c: bv32, a: seq<bv8>, b: seq<bv8>)
    ensures Running(c, a + b) == Running(Running(c, a), b)
  {
    FoldConcat(ByteStep, c, a, b);
  }

  // ------------------------------------------------------------------ linearity

  lemma ShiftLinear(x: bv32, y: bv32)
    ensures Shift(Xor(x, y)) == Xor(Shift(x), Shift(y))
  {
  }

  lemma FeedbackLinear(x: bv32, y: bv32)
    ensures Feedback(Xor(x, y)) == Xor(Feedback(x), Feedback(y))
  {
  }

  lemma XorCommutes(a: bv32, b: bv32)
    ensures Xor(a, b) == Xor(b, a)
  {
  }

  lemma XorAssociates(a: bv32, b: bv32, c: bv32)
    ensures Xor(Xor(a, b), c) == Xor(a, Xor(b, c))
  {
  }

  lemma BitStepLinear(x: bv32, y: bv32)
    ensures BitStep(Xor(x, y)) == Xor(BitStep(x), BitStep(y))
  {
    ShiftLinear(x, y);
    FeedbackLinear(x, y);
    forall a, b ensures Xor(a, b) == Xor(b, a) { XorCommutes(a, b); }
    forall a, b, c ensures Xor(Xor(a, b), c) == Xor(a, Xor(b, c)) { XorAssociates(a, b, c); }
    SumLinear(Xor, Shift, Feedback, x, y);
  }

  lemma StepIsLinear()
    ensures forall a, b :: BitStep(Xor(a, b)) == Xor(BitStep(a), BitStep(b))
  {
    forall a, b ensures BitStep(Xor(a, b)) == Xor(BitStep(a), BitStep(b)) { BitStepLinear(a, b); }
  }

  lemma Unrolled<T>(f: T -> T, c: T)
    ensures Iterate(f, c, 8) == f(f(f(f(f(f(f(f(c))))))))
  {
  }

  lemma EightShifts(c: bv32)
    ensures BitStep(BitStep(BitStep(BitStep(BitStep(BitStep(BitStep(BitStep(c & 0xffff_ff00)))))))) == c >> 8
  {
  }

  /** Eight steps only shift a word whose low byte is zero. */
  lemma LowZeroShifts(c: bv32)
    ensures Iterate(BitStep, c & 0xffff_ff00, 8) == c >> 8
  {
    Unrolled(BitStep, c & 0xffff_ff00);
    EightShifts(c);
  }

  lemma SplitLow(c: bv32)
    ensures c == Xor(c & 0xff, c & 0xffff_ff00)
  {
  }

  /** The identity behind the table: only the low byte needs looking up. */
  lemma TableIdentity(c: bv32)
    ensures Bits8(c) == Xor(Bits8(c & 0xff), c >> 8)
  {
    SplitLow(c);
    StepIsLinear();
    LowZeroShifts(c);
    IterateSplit(BitStep, Xor, c, c & 0xff, c & 0xffff_ff00, 8, c >> 8);
  }

  // ------------------------------------------------------------------ the table-driven form

  /** The source's branch-free step. */
  function TableStep(c: bv32): bv32 {
    (c >> 1) ^ (POLYNOMIAL & (0 - (c & 1)))
  }

  lemma TableStepIsBitStep(c: bv32)
    ensures TableStep(c) == BitStep(c)
  {
  }

  function Entry(i: nat): bv32
    requires i < 256
  {
    Bits8(i as bv32)
  }

  ghost predicate IsTable(table: seq<bv32>) {
    |table| == 256 && forall i :: 0 <= i < 256 ==> table[i] == Entry(i)
  }

  /** The eight shifts of one table entry. */
  method FillEntry(index: nat) returns (crc: bv32)
    requires index < 256
    ensures crc == Entry(index)
  {
    var start := index as bv32;
    crc := start;
    var bit := 0;
    while bit < 8
      invariant 0 <= bit <= 8
      invariant crc == Iterate(BitStep, start, bit)
    {
      TableStepIsBitStep(crc);
      crc := TableStep(crc);
      bit := bit + 1;
    }
  }

  /** Fills the 256-entry table. */
  method CrcTable() returns (table: array<bv32>)
    ensures fresh(table) && IsTable(table[..])
  {
    hide Entry;
    table := new bv32[256];
    var i := 0;
    while i < 256
      invariant 0 <= i <= 256
      invariant forall k :: 0 <= k < i ==> table[k] == Entry(k)
    {
      var crc := FillEntry(i);
      table[i] := crc;
      i := i + 1;
    }
  }

  function Low(x: bv32): (i: nat)
    ensures i < 256
  {
    (x & 0xff) as int
  }

  lemma EntryOf(x: bv32)
    requires x & 0xff == x
    ensures x as int < 256 && Entry(x as int) == Bits8(x)
  {
  }

  lemma LowEntry(x: bv32)
    ensures Entry(Low(x)) == Bits8(x & 0xff)
  {
    EntryOf(x & 0xff);
  }

  lemma LookupIsByteStep(table: seq<bv32>, crc: bv32, b: bv8)
    requires IsTable(table)
    ensures Xor(table[Low(Mix(crc, b))], crc >> 8) == ByteStep(crc, b)
  {
    var x := Mix(crc, b);
    LowEntry(x);
    TableIdentity(x);
    ByteLeavesHigh(crc, b);
  }

  lemma ByteLeavesHigh(crc: bv32, b: bv8)
    ensures Mix(crc, b) >> 8 == crc >> 8
  {
  }

  /** One table lookup per byte computes the bit-by-bit CRC. */
  method UpdateCrc(table: array<bv32>, start: bv32, bytes: seq<bv8>) returns (crc: bv32)
    requires IsTable(table[..])
    ensures crc == Running(start, bytes)
  {
    crc := start;
    for i := 0 to |bytes|
      invariant crc == Running(start, bytes[..i])
    {
      LookupIsByteStep(table[..], crc, bytes[i]);
      crc := Xor(table[Low(Mix(crc, bytes[i]))], crc >> 8);
      assert bytes[..i + 1][..i] == bytes[..i];
    }
    assert bytes[..|bytes|] == bytes;
  }

  // ------------------------------------------------------------------ injectivity

  /** Undoes one bit: the top bit tells whether the polynomial went in. */
  function BitUndo(c: bv32): bv32 {
    if c & 0x8000_0000 == 0 then c << 1 else ((c ^ POLYNOMIAL) << 1) | 1
  }

  lemma BitStepUndone(c: bv32)
    ensures BitUndo(BitStep(c)) == c
  {
  }

  lemma StepIsInjective()
    ensures forall a, b :: BitStep(a) == BitStep(b) ==> a == b
  {
    forall a, b | BitStep(a) == BitStep(b) ensures a == b {
      BitStepUndone(a);
      BitStepUndone(b);
    }
  }

  lemma XorCancels(x: bv32, y: bv32, b: bv8)
    requires Mix(x, b) == Mix(y, b)
    ensures x == y
  {
  }

  /** Different states stay different under the same byte. */
  lemma ByteStepInjective(x: bv32, y: bv32, b: bv8)
    requires ByteStep(x, b) == ByteStep(y, b)
    ensures x == y
  {
    StepIsInjective();
    IterateInjective(BitStep, Mix(x, b), Mix(y, b), 8);
    XorCancels(x, y, b);
  }

  lemma RunningInjective(x: bv32, y: bv32, bytes: seq<bv8>)
    requires Running(x, bytes) == Running(y, bytes)
    ensures x == y
  {
    forall a, b, c | ByteStep(a, c) == ByteStep(b, c) ensures a == b { ByteStepInjective(a, b, c); }
    FoldInjective(ByteStep, x, y, bytes);
  }

  // ------------------------------------------------------------------ the published check value

  /** The nine ASCII bytes "123456789". */
  const CHECK_INPUT: seq<bv8> := [0x31, 0x32, 0x33, 0x34, 0x35, 0x36, 0x37, 0x38, 0x39]

  lemma ByteStepUnrolled(c: bv32, b: bv8)
    ensures ByteStep(c, b) == BitStep(BitStep(BitStep(BitStep(BitStep(BitStep(BitStep(BitStep(Mix(c, b)))))))))
  {
    Unrolled(BitStep, Mix(c, b));
  }

  lemma Digit1()
    ensures ByteStep(0xffff_ffff, 0x31) == 0x7c23_1048
  {
    ByteStepUnrolled(0xffff_ffff, 0x31);
  }

  lemma Digit2()
    ensures ByteStep(0x7c23_1048, 0x32) == 0xb0ac_bb32
  {
    ByteStepUnrolled(0x7c23_1048, 0x32);
  }

  lemma Digit3()
    ensures ByteStep(0xb0ac_bb32, 0x33) == 0x77b7_9c2d
  {
    ByteStepUnrolled(0xb0ac_bb32, 0x33);
  }

  lemma Digit4()
    ensures ByteStep(0x77b7_9c2d, 0x34) == 0x641c_1f5c
  {
    ByteStepUnrolled(0x77b7_9c2d, 0x34);
  }

  lemma Digit5()
    ensures ByteStep(0x641c_1f5c, 0x35) == 0x340a_c5e3
  {
    ByteStepUnrolled(0x641c_1f5c, 0x35);
  }

  lemma Digit6()
    ensures ByteStep(0x340a_c5e3, 0x36) == 0xf68d_2c9e
  {
    ByteStepUnrolled(0x340a_c5e3, 0x36);
  }

  lemma Digit7()
    ensures ByteStep(0xf68d_2c9e, 0x37) == 0xaffc_9660
  {
    ByteStepUnrolled(0xf68d_2c9e, 0x37);
  }

  lemma Digit8()
    ensures ByteStep(0xaffc_9660, 0x38) == 0x651f_2550
  {
    ByteStepUnrolled(0xaffc_9660, 0x38);
  }

  lemma Digit9()
    ensures ByteStep(0x651f_2550, 0x39) == 0x340b_c6d9
  {
    ByteStepUnrolled(0x651f_2550, 0x39);
  }

  lemma NextDigit(k: nat, c: bv32, d: bv32)
    requires k < |CHECK_INPUT| && Running(ALL_ONES, CHECK_INPUT[..k]) == c && ByteStep(c, CHECK_INPUT[k]) == d
    ensures Running(ALL_ONES, CHECK_INPUT[..k + 1]) == d
  {
    RunningConcat(ALL_ONES, CHECK_INPUT[..k], [CHECK_INPUT[k]]);
    assert CHECK_INPUT[..k] + [CHECK_INPUT[k]] == CHECK_INPUT[..k + 1];
  }

  lemma CheckState()
    ensures Running(ALL_ONES, CHECK_INPUT) == 0x340b_c6d9
  {
    hide ByteStep, BitStep;
    assert Running(ALL_ONES, CHECK_INPUT[..0]) == ALL_ONES;
    Digit1();
    NextDigit(0, 0xffff_ffff, 0x7c23_1048);
    Digit2();
    NextDigit(1, 0x7c23_1048, 0xb0ac_bb32);
    Digit3();
    NextDigit(2, 0xb0ac_bb32, 0x77b7_9c2d);
    Digit4();
    NextDigit(3, 0x77b7_9c2d, 0x641c_1f5c);
    Digit5();
    NextDigit(4, 0x641c_1f5c, 0x340a_c5e3);
    Digit6();
    NextDigit(5, 0x340a_c5e3, 0xf68d_2c9e);
    Digit7();
    NextDigit(6, 0xf68d_2c9e, 0xaffc_9660);
    Digit8();
    NextDigit(7, 0xaffc_9660, 0x651f_2550);
    Digit9();
    NextDigit(8, 0x651f_2550, 0x340b_c6d9);
    assert CHECK_INPUT[..9] == CHECK_INPUT;
  }

  /** The published check value of CRC-32, which pins down the polynomial, the bit
      order, the initial word and the final complement; and the CRC of no bytes. */
  lemma CheckValue()
    ensures Crc32([]) == 0
    ensures Crc32(CHECK_INPUT) == 0xcbf4_3926
  {
    CheckState();
  }
}
