/** Which damage the CRC cannot miss. */
module CrcDetection {
  import opened Folding
  import opened Crc

  function Push(b: bv8, rest: bv32): bv32 { (b as bv32) | (rest << 8) }

  /** A few bytes as one little-endian word. */
  function Word(bytes: seq<bv8>): bv32 { Pack(Push, 0, bytes) }

  /** At most three bytes are in use. */
  predicate Fits(w: bv32, bytes: nat) {
    if bytes == 0 then w == 0
    else if bytes == 1 then w & 0xff == w
    else if bytes == 2 then w & 0xffff == w
    else w & 0xff_ffff == w
  }

  lemma PushFits0(b: bv8) ensures Push(b, 0) & 0xff == Push(b, 0) {}

  lemma PushFits1(b: bv8, r: bv32) requires r & 0xff == r ensures Push(b, r) & 0xffff == Push(b, r) {}

  lemma PushFits2(b: bv8, r: bv32) requires r & 0xffff == r ensures Push(b, r) & 0xff_ffff == Push(b, r) {}

  lemma FitsMore(w: bv32) ensures w & 0xff == w ==> w & 0xff_ffff == w ensures w & 0xffff == w ==> w & 0xff_ffff == w {}

  lemma {:induction false} WordFits(bytes: seq<bv8>)
    requires |bytes| <= 3
    ensures Fits(Word(bytes), |bytes|)
    ensures Fits(Word(bytes), 3)
    decreases |bytes|
  {
    if bytes != [] {
      var r := Word(bytes[1..]);
      WordFits(bytes[1..]);
      if |bytes| == 1 {
        PushFits0(bytes[0]);
      } else if |bytes| == 2 {
        PushFits1(bytes[0], r);
      } else {
        PushFits2(bytes[0], r);
      }
    }
    FitsMore(Word(bytes));
  }

  function Up(rest: bv32): bv32 { (rest << 8) & 0xffff_ff00 }

  lemma PushIsXor(b: bv8, rest: bv32)
    ensures Push(b, rest) == Xor(b as bv32, Up(rest))
  {
  }

  lemma PushMixes(s: bv32, b: bv8, rest: bv32)
    ensures Xor(s, Push(b, rest)) == Xor(Mix(s, b), Up(rest))
  {
    PushIsXor(b, rest);
    XorAssociates(s, b as bv32, Up(rest));
  }

  function Down(c: bv32): bv32 { c >> 8 }

  function Raised(rest: bv32): bv32 { rest << 8 }

  function Cut(c: bv32): bv32 { c & 0xffff_ff00 }

  lemma UpDown(rest: bv32)
    requires Fits(rest, 3)
    ensures Down(Raised(rest)) == rest
    ensures Up(rest) == Cut(Raised(rest))
  {
  }

  lemma ShiftedDown(c: bv32)
    ensures Iterate(BitStep, Cut(c), 8) == Down(c)
  {
  }

  lemma UpShifts(rest: bv32)
    requires Fits(rest, 3)
    ensures Iterate(BitStep, Up(rest), 8) == rest
  {
    UpDown(rest);
    ShiftedDown(Raised(rest));
  }

  /** Eight bits absorb the low byte of a word and leave the rest to be mixed in. */
  lemma Peel(s: bv32, b: bv8, rest: bv32)
    requires Fits(rest, 3)
    ensures Bits8(Xor(s, Push(b, rest))) == Xor(ByteStep(s, b), rest)
  {
    PushMixes(s, b, rest);
    StepIsLinear();
    UpShifts(rest);
    IterateSplit(BitStep, Xor, Xor(s, Push(b, rest)), Mix(s, b), Up(rest), 8, rest);
  }

  lemma XorZero(s: bv32)
    ensures Xor(s, 0) == s
  {
  }

  /** Feeding up to four bytes one by one is mixing them in at once. */
  lemma Absorbed(s: bv32, bytes: seq<bv8>)
    requires |bytes| <= 4
    ensures Running(s, bytes) == Iterate(Bits8, Xor(s, Word(bytes)), |bytes|)
  {
    forall x ensures Xor(x, 0) == x { XorZero(x); }
    forall x, i | 0 <= i < |bytes|
      ensures Bits8(Xor(x, Push(bytes[i], Pack(Push, 0, bytes[i + 1..])))) ==
          Xor(ByteStep(x, bytes[i]), Pack(Push, 0, bytes[i + 1..]))
    {
      WordFits(bytes[i + 1..]);
      Peel(x, bytes[i], Word(bytes[i + 1..]));
    }
    FoldIsRounds(ByteStep, Bits8, Xor, Push, 0, s, bytes);
  }

  lemma PushInjective(a: bv8, r: bv32, b: bv8, q: bv32)
    requires Fits(r, 3) && Fits(q, 3) && Push(a, r) == Push(b, q)
    ensures a == b && r == q
  {
  }

  lemma WordInjective(v: seq<bv8>, w: seq<bv8>)
    requires |v| == |w| <= 4 && Word(v) == Word(w)
    ensures v == w
  {
    forall i | 0 <= i < |v| && Push(v[i], Pack(Push, 0, v[i + 1..])) == Push(w[i], Pack(Push, 0, w[i + 1..]))
      ensures v[i] == w[i] && Pack(Push, 0, v[i + 1..]) == Pack(Push, 0, w[i + 1..])
    {
      WordFits(v[i + 1..]);
      WordFits(w[i + 1..]);
      PushInjective(v[i], Word(v[i + 1..]), w[i], Word(w[i + 1..]));
    }
    PackInjective(Push, 0, v, w);
  }

  lemma Bits8Injective()
    ensures forall a, b :: Bits8(a) == Bits8(b) ==> a == b
  {
    StepIsInjective();
    forall a, b | Bits8(a) == Bits8(b) ensures a == b { IterateInjective(BitStep, a, b, 8); }
  }

  lemma XorCancelsLeft(s: bv32, v: bv32, w: bv32)
    requires Xor(s, v) == Xor(s, w)
    ensures v == w
  {
  }

  /** From one state, different bursts of equal length end in different states. */
  lemma BurstsDiverge(s: bv32, v: seq<bv8>, w: seq<bv8>)
    requires |v| == |w| <= 4 && v != w
    ensures Running(s, v) != Running(s, w)
  {
    if Running(s, v) == Running(s, w) {
      Absorbed(s, v);
      Absorbed(s, w);
      Bits8Injective();
      IterateInjective(Bits8, Xor(s, Word(v)), Xor(s, Word(w)), |v|);
      XorCancelsLeft(s, Word(v), Word(w));
      WordInjective(v, w);
    }
  }

  /** Any damage confined to four consecutive bytes changes the CRC, whatever
      surrounds it and however long the data is. */
  lemma BurstDetected(before: seq<bv8>, v: seq<bv8>, w: seq<bv8>, after: seq<bv8>)
    requires |v| == |w| <= 4 && v != w
    ensures Crc32(before + v + after) != Crc32(before + w + after)
  {
    var c := ALL_ONES;
    var s := Running(c, before);
    RunningConcat(c, before + v, after);
    RunningConcat(c, before + w, after);
    RunningConcat(c, before, v);
    RunningConcat(c, before, w);
    BurstsDiverge(s, v, w);
    if Running(c, before + v + after) == Running(c, before + w + after) {
      RunningInjective(Running(s, v), Running(s, w), after);
    }
    InvertedInjective(Running(c, before + v + after), Running(c, before + w + after));
  }

  lemma InvertedInjective(x: bv32, y: bv32)
    requires x != y
    ensures Inverted(x) != Inverted(y)
  {
  }
}
