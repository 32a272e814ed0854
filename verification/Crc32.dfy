/** The table-driven CRC-32 of import/zip.ts against the bit-serial one of section 8 of
    RFC 1952, and the changes that a matching checksum excludes. */
module Crc32 {

  const POLYNOMIAL: bv32 := 0xEDB88320

  // ---- Bit by bit ------------------------------------------------------------------------------

  /** The register takes in the lowest bit of bits. */
  function TakeBit(crc: bv32, bits: bv32): bv32 {
    if (crc ^ bits) & 1 == 1 then (crc >> 1) ^ POLYNOMIAL else crc >> 1
  }

  function Shift(bits: bv32): bv32 {
    bits >> 1
  }

  /** A register fed n times from a supply that moves on each time. */
  function Feed<T>(take: (T, T) -> T, next: T -> T, register: T, supply: T, n: nat): T
    decreases n
  {
    if n == 0 then register else Feed(take, next, take(register, supply), next(supply), n - 1)
  }

  /** The register takes in a byte, least significant bit first. */
  function TakeByte(crc: bv32, byte: bv8): bv32 {
    Feed(TakeBit, Shift, crc, byte as bv32, 8)
  }

  function TakeBytes(crc: bv32, bytes: seq<bv8>): bv32 {
    if bytes == [] then crc else TakeByte(TakeBytes(crc, bytes[..|bytes| - 1]), bytes[|bytes| - 1])
  }

  /** CRC-32 as the standard defines it. */
  function Crc(bytes: seq<bv8>): bv32 {
    TakeBytes(0xFFFF_FFFF, bytes) ^ 0xFFFF_FFFF
  }

  // ---- Rounds ------------------------------------------------------------------------------------

  /** One round of the table's inner loop. */
  function Round(value: bv32): bv32 {
    if value & 1 == 1 then (value >> 1) ^ POLYNOMIAL else value >> 1
  }

  function Iterate<T>(f: T -> T, value: T, n: nat): T
    decreases n
  {
    if n == 0 then value else Iterate(f, f(value), n - 1)
  }

  lemma LowBit(x: bv32)
    ensures x & 1 == 0 || x & 1 == 1
  {
  }

  lemma ShiftIsLinear(x: bv32, y: bv32)
    ensures (x ^ y) >> 1 == (x >> 1) ^ (y >> 1) && (x ^ y) & 1 == (x & 1) ^ (y & 1)
  {
  }

  lemma XorTwice(x: bv32, y: bv32, p: bv32)
    ensures (x ^ p) ^ (y ^ p) == x ^ y && (x ^ p) ^ y == (x ^ y) ^ p && x ^ (y ^ p) == (x ^ y) ^ p && (x ^ p) ^ p == x
  {
  }

  lemma RoundIsLinear(x: bv32, y: bv32)
    ensures Round(x ^ y) == Round(x) ^ Round(y)
  {
    ShiftIsLinear(x, y);
    LowBit(x);
    LowBit(y);
    XorTwice(x >> 1, y >> 1, POLYNOMIAL);
  }

  lemma {:induction false} IterateIsLinear<T>(f: T -> T, plus: (T, T) -> T, x: T, y: T, n: nat)
    requires forall a, b :: f(plus(a, b)) == plus(f(a), f(b))
    ensures Iterate(f, plus(x, y), n) == plus(Iterate(f, x, n), Iterate(f, y, n))
    decreases n
  {
    if n > 0 {
      IterateIsLinear(f, plus, f(x), f(y), n - 1);
    }
  }

  /** If one round on a register with the supply mixed in takes from the supply and moves it on,
      n rounds take from it n times. */
  lemma {:induction false} IterateIsFeed<T>(f: T -> T, plus: (T, T) -> T, take: (T, T) -> T, next: T -> T, x: T, y: T, n: nat)
    requires forall a, b :: f(plus(a, b)) == plus(take(a, b), next(b))
    ensures Iterate(f, plus(x, y), n) == plus(Feed(take, next, x, y, n), Iterate(next, y, n))
    decreases n
  {
    if n > 0 {
      IterateIsFeed(f, plus, take, next, take(x, y), next(y), n - 1);
    }
  }

  function Xor(x: bv32, y: bv32): bv32 {
    x ^ y
  }

  lemma RoundsAreLinear(x: bv32, y: bv32, n: nat)
    ensures Iterate(Round, Xor(x, y), n) == Xor(Iterate(Round, x, n), Iterate(Round, y, n))
  {
    forall a, b ensures Round(Xor(a, b)) == Xor(Round(a), Round(b)) {
      RoundIsLinear(a, b);
    }
    IterateIsLinear(Round, Xor, x, y, n);
  }

  lemma OddRoundTakesBit(crc: bv32, bits: bv32)
    requires (crc ^ bits) & 1 == 1
    ensures Round(crc ^ bits) == TakeBit(crc, bits) ^ (bits >> 1)
  {
    ShiftXor(crc, bits);
    XorSwap(crc >> 1, bits >> 1, POLYNOMIAL);
  }

  lemma EvenRoundTakesBit(crc: bv32, bits: bv32)
    requires (crc ^ bits) & 1 == 0
    ensures Round(crc ^ bits) == TakeBit(crc, bits) ^ (bits >> 1)
  {
    ShiftXor(crc, bits);
  }

  /** One round on a register with bits mixed in takes in the lowest and shifts the rest. */
  lemma RoundTakesBit(crc: bv32, bits: bv32)
    ensures Round(crc ^ bits) == TakeBit(crc, bits) ^ (bits >> 1)
  {
    LowBit(crc ^ bits);
    if (crc ^ bits) & 1 == 1 {
      OddRoundTakesBit(crc, bits);
    } else {
      EvenRoundTakesBit(crc, bits);
    }
  }

  lemma ShiftXor(x: bv32, y: bv32)
    ensures (x ^ y) >> 1 == (x >> 1) ^ (y >> 1)
  {
  }

  lemma XorSwap(x: bv32, y: bv32, p: bv32)
    ensures (x ^ p) ^ y == (x ^ y) ^ p
  {
  }

  /** n rounds on a register with all bits mixed in at once take in n bits one by one. */
  lemma RoundsTakeBits(crc: bv32, bits: bv32, n: nat)
    ensures Iterate(Round, Xor(crc, bits), n) == Xor(Feed(TakeBit, Shift, crc, bits, n), Iterate(Shift, bits, n))
  {
    forall a, b ensures Round(Xor(a, b)) == Xor(TakeBit(a, b), Shift(b)) {
      RoundTakesBit(a, b);
    }
    IterateIsFeed(Round, Xor, TakeBit, Shift, crc, bits, n);
  }

  lemma ShiftEight(x: bv32)
    ensures Iterate(Shift, x, 8) == x >> 8
  {
  }

  lemma EvenRound(x: bv32)
    requires x & 1 == 0
    ensures Round(x) == x >> 1
  {
  }

  // ---- Undoing a round -----------------------------------------------------------------------------

  /** The polynomial's top bit is set, so the top bit tells which way a round went. */
  function Unround(w: bv32): bv32 {
    if w & 0x8000_0000 != 0 then ((w ^ POLYNOMIAL) << 1) | 1 else w << 1
  }

  lemma ShiftBack(x: bv32)
    ensures x & 1 == 1 ==> ((x >> 1) << 1) | 1 == x
    ensures x & 1 == 0 ==> (x >> 1) << 1 == x
    ensures (x >> 1) & 0x8000_0000 == 0 && ((x >> 1) ^ POLYNOMIAL) & 0x8000_0000 != 0
  {
  }

  lemma ShiftForth(w: bv32)
    requires w & 0x8000_0000 == 0
    ensures (w << 1) & 1 == 0 && (w << 1) >> 1 == w && ((w << 1) | 1) & 1 == 1 && ((w << 1) | 1) >> 1 == w
  {
  }

  lemma ClearTop(w: bv32)
    requires w & 0x8000_0000 != 0
    ensures (w ^ POLYNOMIAL) & 0x8000_0000 == 0
  {
  }

  lemma UnroundUndoes(x: bv32)
    ensures Unround(Round(x)) == x
  {
    LowBit(x);
    ShiftBack(x);
    XorTwice(x >> 1, 0, POLYNOMIAL);
  }

  lemma RoundRedoes(x: bv32)
    ensures Round(Unround(x)) == x
  {
    XorTwice(x, 0, POLYNOMIAL);
    if x & 0x8000_0000 != 0 {
      ClearTop(x);
      ShiftForth(x ^ POLYNOMIAL);
    } else {
      ShiftForth(x);
    }
  }

  lemma {:induction false} IterateIsInjective<T>(f: T -> T, back: T -> T, x: T, y: T, n: nat)
    requires forall a :: back(f(a)) == a
    requires Iterate(f, x, n) == Iterate(f, y, n)
    ensures x == y
    decreases n
  {
    if n > 0 {
      IterateIsInjective(f, back, f(x), f(y), n - 1);
      assert back(f(x)) == x && back(f(y)) == y;
    }
  }

  lemma RoundsAreInjective(x: bv32, y: bv32, n: nat)
    requires Iterate(Round, x, n) == Iterate(Round, y, n)
    ensures x == y
  {
    forall a ensures Unround(Round(a)) == a {
      UnroundUndoes(a);
    }
    IterateIsInjective(Round, Unround, x, y, n);
  }

  lemma {:induction false} IterateReaches<T>(f: T -> T, back: T -> T, y: T, n: nat) returns (x: T)
    requires forall a :: f(back(a)) == a
    ensures Iterate(f, x, n) == y
    decreases n
  {
    x := y;
    if n > 0 {
      var later := IterateReaches(f, back, y, n - 1);
      x := back(later);
    }
  }

  /** Whatever register is wanted after n rounds, some register leads to it. */
  lemma RoundsAreSurjective(y: bv32, n: nat)
    ensures exists x :: Iterate(Round, x, n) == y
  {
    forall a ensures Round(Unround(a)) == a {
      RoundRedoes(a);
    }
    var x := IterateReaches(Round, Unround, y, n);
  }

  // ---- The byte step ---------------------------------------------------------------------------------

  lemma ByteFits(byte: bv8)
    ensures (byte as bv32) >> 8 == 0 && (byte as bv32) & 0xFF == byte as bv32
  {
  }

  lemma XorZero(x: bv32)
    ensures Xor(x, 0) == x && Xor(0, x) == x
  {
  }

  // Below, a round count n with n == 8 stands for the constant, so that a proof sees Iterate and
  // Feed folded and unrolls them only where it asks for the definition.

  /** Taking a byte bit by bit is eight rounds on the register with the byte mixed in at once. */
  lemma TakeByteIsRounds(crc: bv32, byte: bv8, n: nat)
    requires n == 8
    ensures TakeByte(crc, byte) == Iterate(Round, Xor(crc, byte as bv32), n)
  {
    RoundsTakeBits(crc, byte as bv32, n);
    ShiftEight(byte as bv32);
    ByteFits(byte);
    XorZero(TakeByte(crc, byte));
  }

  lemma {:induction false} IterateAgrees<T>(f: T -> T, g: T -> T, x: T, n: nat)
    requires forall k: nat :: k < n ==> f(Iterate(g, x, k)) == g(Iterate(g, x, k))
    ensures Iterate(f, x, n) == Iterate(g, x, n)
    decreases n
  {
    if n > 0 {
      assert Iterate(g, x, 0) == x;
      forall k: nat | k < n - 1 ensures f(Iterate(g, g(x), k)) == g(Iterate(g, g(x), k)) {
        assert Iterate(g, x, k + 1) == Iterate(g, g(x), k);
      }
      IterateAgrees(f, g, g(x), n - 1);
    }
  }

  lemma MaskedBit(x: bv32, mask: bv32)
    requires x & mask == 0
    ensures (x >> 1) & (mask >> 1) == 0 && (mask & 1 == 1 ==> x & 1 == 0)
  {
  }

  lemma {:induction false} MaskedShift(x: bv32, mask: bv32, k: nat)
    requires x & mask == 0 && Iterate(Shift, mask, k) & 1 == 1
    ensures Iterate(Shift, x, k) & 1 == 0
    decreases k
  {
    MaskedBit(x, mask);
    if k > 0 {
      MaskedShift(Shift(x), Shift(mask), k - 1);
    }
  }

  lemma ByteMask(k: nat)
    requires k < 8
    ensures Iterate(Shift, 0xFF, k) & 1 == 1
  {
    assert Iterate(Shift, 0xFF, 0) == 0xFF && Iterate(Shift, 0xFF, 1) == 0x7F && Iterate(Shift, 0xFF, 2) == 0x3F;
    assert Iterate(Shift, 0xFF, 3) == 0x1F && Iterate(Shift, 0xFF, 4) == 0x0F && Iterate(Shift, 0xFF, 5) == 0x07;
    assert Iterate(Shift, 0xFF, 6) == 0x03 && Iterate(Shift, 0xFF, 7) == 0x01;
    assert k in {0, 1, 2, 3, 4, 5, 6, 7};
  }

  /** Eight rounds on a register whose low byte is clear only shift it. */
  lemma ClearByteShifts(x: bv32, n: nat)
    requires x & 0xFF == 0 && n == 8
    ensures Iterate(Round, x, n) == x >> 8
  {
    forall k: nat | k < n ensures Round(Iterate(Shift, x, k)) == Shift(Iterate(Shift, x, k)) {
      ByteMask(k);
      MaskedShift(x, 0xFF, k);
      EvenRound(Iterate(Shift, x, k));
    }
    IterateAgrees(Round, Shift, x, n);
    ShiftEight(x);
  }

  lemma SplitLowByte(x: bv32)
    ensures x == Xor(x & 0xFFFF_FF00, x & 0xFF) && (x & 0xFFFF_FF00) & 0xFF == 0
    ensures (x & 0xFFFF_FF00) >> 8 == x >> 8
  {
  }

  lemma MixKeepsHigh(crc: bv32, byte: bv8)
    ensures Xor(crc, byte as bv32) >> 8 == crc >> 8
  {
  }

  /** Eight rounds split into the low byte's table entry and a shift of the rest. */
  lemma RoundsSplit(x: bv32, high: bv32, low: bv32, n: nat)
    requires n == 8 && high == x & 0xFFFF_FF00 && low == x & 0xFF
    ensures Iterate(Round, x, n) == Xor(x >> 8, Iterate(Round, low, n))
  {
    SplitLowByte(x);
    RoundsAreLinear(high, low, n);
    ClearByteShifts(high, n);
  }

  function LowByte(x: bv32): (b: bv8)
    ensures b as bv32 == x & 0xFF
  {
    (x & 0xFF) as bv8
  }

  lemma ByteIndex(b: bv8)
    ensures 0 <= b as int < 256 && (b as int) as bv8 == b
  {
  }

  /** The step of the source's loop: shift, and mix in the table's entry. */
  function TableStep(table: seq<bv32>, crc: bv32, byte: bv8): bv32
    requires |table| == 256
  {
    Xor(crc >> 8, table[LowByte(Xor(crc, byte as bv32)) as int])
  }

  ghost predicate IsTable(table: seq<bv32>, n: nat) {
    |table| == 256 && forall i :: 0 <= i < 256 ==> table[i] == Iterate(Round, (i as bv8) as bv32, n)
  }

  lemma EntryOf(table: seq<bv32>, b: bv8, n: nat)
    requires IsTable(table, n)
    ensures table[b as int] == Iterate(Round, b as bv32, n)
  {
    ByteIndex(b);
  }

  lemma SplitStep(crc: bv32, byte: bv8, mixed: bv32, low: bv8, n: nat)
    requires n == 8 && mixed == Xor(crc, byte as bv32) && low == LowByte(mixed)
    ensures Iterate(Round, mixed, n) == Xor(crc >> 8, Iterate(Round, low as bv32, n))
  {
    RoundsSplit(mixed, mixed & 0xFFFF_FF00, low as bv32, n);
    MixKeepsHigh(crc, byte);
  }

  lemma TableStepIsRounds(table: seq<bv32>, crc: bv32, byte: bv8, n: nat)
    requires n == 8 && IsTable(table, n)
    ensures TableStep(table, crc, byte) == Iterate(Round, Xor(crc, byte as bv32), n)
  {
    var mixed := Xor(crc, byte as bv32);
    var low := LowByte(mixed);
    EntryOf(table, low, n);
    SplitStep(crc, byte, mixed, low, n);
    var shifted, entry, rounds := crc >> 8, table[low as int], Iterate(Round, low as bv32, n);
    assert entry == rounds;
    assert Iterate(Round, mixed, n) == Xor(shifted, rounds);
  }

  /** The table step is the bit-serial step. */
  lemma TableStepTakesByte(table: seq<bv32>, crc: bv32, byte: bv8, n: nat)
    requires n == 8 && IsTable(table, n)
    ensures TableStep(table, crc, byte) == TakeByte(crc, byte)
  {
    TableStepIsRounds(table, crc, byte, n);
    TakeByteIsRounds(crc, byte, n);
  }

  lemma {:induction false} IterateOnce<T>(f: T -> T, x: T, n: nat)
    ensures Iterate(f, x, n + 1) == f(Iterate(f, x, n))
    decreases n
  {
    if n > 0 {
      IterateOnce(f, f(x), n - 1);
    }
  }

  /** CRC_TABLE. */
  method MakeTable(rounds: nat) returns (table: seq<bv32>)
    ensures IsTable(table, rounds)
  {
    var entries := new bv32[256];
    for i := 0 to 256
      invariant forall k :: 0 <= k < i ==> entries[k] == Iterate(Round, (k as bv8) as bv32, rounds)
    {
      entries[i] := TableEntry((i as bv8) as bv32, rounds);
    }
    table := entries[..];
  }

  method TableEntry(index: bv32, rounds: nat) returns (value: bv32)
    ensures value == Iterate(Round, index, rounds)
  {
    value := index;
    for bit := 0 to rounds
      invariant value == Iterate(Round, index, bit)
    {
      IterateOnce(Round, index, bit);
      value := if value & 1 == 1 then (value >> 1) ^ POLYNOMIAL else value >> 1;
    }
  }

  method Checksum(buffer: seq<bv8>) returns (crc: bv32)
    ensures crc == Crc(buffer)
  {
    var table := MakeTable(8);
    crc := 0xFFFF_FFFF;
    for i := 0 to |buffer|
      invariant crc == TakeBytes(0xFFFF_FFFF, buffer[..i])
    {
      assert buffer[..i + 1][..i] == buffer[..i];
      TableStepTakesByte(table, crc, buffer[i], 8);
      crc := TableStep(table, crc, buffer[i]);
    }
    assert buffer[..|buffer|] == buffer;
    crc := crc ^ 0xFFFF_FFFF;
  }

  // ---- What a matching checksum excludes -----------------------------------------------------------

  lemma XorCancels(a: bv32, x: bv32, y: bv32)
    requires Xor(a, x) == Xor(a, y) || Xor(x, a) == Xor(y, a)
    ensures x == y
  {
  }

  lemma WidenInjective(b: bv8, c: bv8)
    requires b as bv32 == c as bv32
    ensures b == c
  {
  }

  /** Two registers that one byte takes to the same register are the same. */
  lemma ByteStepInjective(x: bv32, y: bv32, byte: bv8, n: nat)
    requires n == 8 && TakeByte(x, byte) == TakeByte(y, byte)
    ensures x == y
  {
    TakeByteIsRounds(x, byte, n);
    TakeByteIsRounds(y, byte, n);
    RoundsAreInjective(Xor(x, byte as bv32), Xor(y, byte as bv32), n);
    XorCancels(byte as bv32, x, y);
  }

  /** Two bytes that take a register to the same register are the same. */
  lemma ByteStepTellsBytes(x: bv32, b: bv8, c: bv8, n: nat)
    requires n == 8 && TakeByte(x, b) == TakeByte(x, c)
    ensures b == c
  {
    TakeByteIsRounds(x, b, n);
    TakeByteIsRounds(x, c, n);
    RoundsAreInjective(Xor(x, b as bv32), Xor(x, c as bv32), n);
    XorCancels(x, b as bv32, c as bv32);
    WidenInjective(b, c);
  }

  lemma XorBack(x: bv32, y: bv32)
    ensures Xor(Xor(x, y), y) == x
  {
  }

  /** The byte step is a bijection on the register: each register has exactly one before it. */
  lemma ByteStepIsBijective(y: bv32, byte: bv8, n: nat)
    requires n == 8
    ensures exists x :: TakeByte(x, byte) == y && forall z :: TakeByte(z, byte) == y ==> z == x
  {
    RoundsAreSurjective(y, n);
    var mixed :| Iterate(Round, mixed, n) == y;
    var x := Xor(mixed, byte as bv32);
    XorBack(mixed, byte as bv32);
    TakeByteIsRounds(x, byte, n);
    forall z | TakeByte(z, byte) == y ensures z == x {
      ByteStepInjective(z, x, byte, n);
    }
  }

  lemma {:induction false} TailIsInjective(x: bv32, y: bv32, tail: seq<bv8>)
    requires TakeBytes(x, tail) == TakeBytes(y, tail)
    ensures x == y
  {
    if tail != [] {
      var before := tail[..|tail| - 1];
      ByteStepInjective(TakeBytes(x, before), TakeBytes(y, before), tail[|tail| - 1], 8);
      TailIsInjective(x, y, before);
    }
  }

  lemma {:induction false} TakeBytesJoin(crc: bv32, first: seq<bv8>, second: seq<bv8>)
    ensures TakeBytes(crc, first + second) == TakeBytes(TakeBytes(crc, first), second)
  {
    if second == [] {
      assert first + second == first;
    } else {
      TakeBytesJoin(crc, first, second[..|second| - 1]);
      assert (first + second)[..|first + second| - 1] == first + second[..|second| - 1];
    }
  }

  lemma {:induction false} TakeOne(crc: bv32, b: bv8)
    ensures TakeBytes(crc, [b]) == TakeByte(crc, b)
  {
    assert [b][..0] == [];
  }

  /** Two buffers of one length that differ in exactly one byte have different checksums. */
  lemma OneByteChangesCrc(head: seq<bv8>, b: bv8, c: bv8, tail: seq<bv8>)
    requires b != c
    ensures Crc(head + [b] + tail) != Crc(head + [c] + tail)
  {
    var start := TakeBytes(0xFFFF_FFFF, head);
    TakeBytesJoin(0xFFFF_FFFF, head, [b]);
    TakeBytesJoin(0xFFFF_FFFF, head, [c]);
    TakeBytesJoin(0xFFFF_FFFF, head + [b], tail);
    TakeBytesJoin(0xFFFF_FFFF, head + [c], tail);
    TakeOne(start, b);
    TakeOne(start, c);
    if Crc(head + [b] + tail) == Crc(head + [c] + tail) {
      XorCancels(0xFFFF_FFFF, TakeBytes(TakeBytes(start, [b]), tail), TakeBytes(TakeBytes(start, [c]), tail));
      TailIsInjective(TakeBytes(start, [b]), TakeBytes(start, [c]), tail);
      ByteStepTellsBytes(start, b, c, 8);
      assert false;
    }
  }

  // ---- A burst of four bytes -------------------------------------------------------------------------

  /** Four bytes as the little-endian word the register takes in. */
  function Word(a: bv8, b: bv8, c: bv8, d: bv8): bv32 {
    (a as bv32) | ((b as bv32) << 8) | ((c as bv32) << 16) | ((d as bv32) << 24)
  }

  /** Taking the lowest byte of a word leaves the rest of the word mixed in, shifted down. */
  lemma TakeLowByte(crc: bv32, word: bv32, byte: bv8, n: nat)
    requires n == 8 && word & 0xFF == byte as bv32
    ensures Iterate(Round, Xor(crc, word), n) == Xor(TakeByte(crc, byte), word >> 8)
  {
    var high := word & 0xFFFF_FF00;
    SplitLowByte(word);
    TakeByteIsRounds(crc, byte, n);
    RoundsAreLinear(Xor(crc, byte as bv32), high, n);
    ClearByteShifts(high, n);
    MixThree(crc, word);
  }

  lemma MixThree(crc: bv32, word: bv32)
    ensures Xor(crc, word) == Xor(Xor(crc, word & 0xFF), word & 0xFFFF_FF00)
  {
  }

  lemma WordParts(a: bv8, b: bv8, c: bv8, d: bv8)
    ensures var w := Word(a, b, c, d);
            w & 0xFF == a as bv32 && (w >> 8) & 0xFF == b as bv32
            && ((w >> 8) >> 8) & 0xFF == c as bv32 && (((w >> 8) >> 8) >> 8) & 0xFF == d as bv32
            && (((w >> 8) >> 8) >> 8) >> 8 == 0
  {
  }

  lemma SomeWord(a: bv8, b: bv8, c: bv8, d: bv8) returns (w: bv32, w1: bv32, w2: bv32, w3: bv32)
    ensures w1 == w >> 8 && w2 == w1 >> 8 && w3 == w2 >> 8 && w3 >> 8 == 0
    ensures w & 0xFF == a as bv32 && w1 & 0xFF == b as bv32 && w2 & 0xFF == c as bv32 && w3 & 0xFF == d as bv32
  {
    w := Word(a, b, c, d);
    w1 := w >> 8;
    w2 := w1 >> 8;
    w3 := w2 >> 8;
    WordParts(a, b, c, d);
  }

  function Four(crc: bv32, a: bv8, b: bv8, c: bv8, d: bv8): bv32 {
    TakeByte(TakeByte(TakeByte(TakeByte(crc, a), b), c), d)
  }

  lemma {:induction false} TakeFour(crc: bv32, a: bv8, b: bv8, c: bv8, d: bv8)
    ensures TakeBytes(crc, [a, b, c, d]) == Four(crc, a, b, c, d)
  {
    assert [a, b, c, d] == [a] + [b] + [c] + [d];
    TakeBytesJoin(crc, [a] + [b] + [c], [d]);
    TakeBytesJoin(crc, [a] + [b], [c]);
    TakeBytesJoin(crc, [a], [b]);
    TakeOne(crc, a);
    TakeOne(TakeByte(crc, a), b);
    TakeOne(TakeByte(TakeByte(crc, a), b), c);
    TakeOne(TakeByte(TakeByte(TakeByte(crc, a), b), c), d);
  }

  function Rounds4(x: bv32, n: nat): bv32 {
    Iterate(Round, Iterate(Round, Iterate(Round, Iterate(Round, x, n), n), n), n)
  }

  lemma TwoAreRounds(crc: bv32, word: bv32, rest: bv32, a: bv8, b: bv8, n: nat)
    requires n == 8 && word & 0xFF == a as bv32 && rest == word >> 8 && rest & 0xFF == b as bv32
    ensures Iterate(Round, Iterate(Round, Xor(crc, word), n), n) == Xor(TakeByte(TakeByte(crc, a), b), rest >> 8)
  {
    TakeLowByte(crc, word, a, n);
    TakeLowByte(TakeByte(crc, a), rest, b, n);
  }

  lemma FourAreRounds(crc: bv32, w: bv32, w1: bv32, w2: bv32, w3: bv32, a: bv8, b: bv8, c: bv8, d: bv8, n: nat)
    requires n == 8 && w1 == w >> 8 && w2 == w1 >> 8 && w3 == w2 >> 8 && w3 >> 8 == 0
    requires w & 0xFF == a as bv32 && w1 & 0xFF == b as bv32 && w2 & 0xFF == c as bv32 && w3 & 0xFF == d as bv32
    ensures Rounds4(Xor(crc, w), n) == Xor(Four(crc, a, b, c, d), 0)
  {
    TwoAreRounds(crc, w, w1, a, b, n);
    TwoAreRounds(TakeByte(TakeByte(crc, a), b), w2, w3, c, d, n);
  }

  lemma Rounds4AreInjective(a: bv32, b: bv32, n: nat)
    requires Rounds4(a, n) == Rounds4(b, n)
    ensures a == b
  {
    var a1, b1 := Iterate(Round, a, n), Iterate(Round, b, n);
    var a2, b2 := Iterate(Round, a1, n), Iterate(Round, b1, n);
    RoundsAreInjective(Iterate(Round, a2, n), Iterate(Round, b2, n), n);
    RoundsAreInjective(a2, b2, n);
    RoundsAreInjective(a1, b1, n);
    RoundsAreInjective(a, b, n);
  }

  lemma FourTellWords(crc: bv32, v: bv32, w: bv32, end: bv32, n: nat)
    requires Rounds4(Xor(crc, v), n) == end && Rounds4(Xor(crc, w), n) == end
    ensures v == w
  {
    Rounds4AreInjective(Xor(crc, v), Xor(crc, w), n);
    XorCancels(crc, v, w);
  }

  /** The word of four bytes, and where it takes a register. */
  lemma WordOf(crc: bv32, a: bv8, b: bv8, c: bv8, d: bv8, n: nat) returns (w: bv32, w1: bv32, w2: bv32, w3: bv32)
    requires n == 8
    ensures w1 == w >> 8 && w2 == w1 >> 8 && w3 == w2 >> 8
    ensures w & 0xFF == a as bv32 && w1 & 0xFF == b as bv32 && w2 & 0xFF == c as bv32 && w3 & 0xFF == d as bv32
    ensures Rounds4(Xor(crc, w), n) == Xor(Four(crc, a, b, c, d), 0)
  {
    w, w1, w2, w3 := SomeWord(a, b, c, d);
    FourAreRounds(crc, w, w1, w2, w3, a, b, c, d, n);
  }

  lemma FourTellBytes(crc: bv32, a: bv8, b: bv8, c: bv8, d: bv8, a': bv8, b': bv8, c': bv8, d': bv8, n: nat)
    requires n == 8 && Four(crc, a, b, c, d) == Four(crc, a', b', c', d')
    ensures a == a' && b == b' && c == c' && d == d'
  {
    var v, v1, v2, v3 := WordOf(crc, a, b, c, d, n);
    var w, w1, w2, w3 := WordOf(crc, a', b', c', d', n);
    FourTellWords(crc, v, w, Xor(Four(crc, a, b, c, d), 0), n);
    WidenInjective(a, a');
    WidenInjective(b, b');
    WidenInjective(c, c');
    WidenInjective(d, d');
  }

  /** Two buffers of one length that differ only within four neighbouring bytes have different
      checksums: every burst of up to thirty-two bits is seen. */
  lemma BurstChangesCrc(head: seq<bv8>, p: seq<bv8>, q: seq<bv8>, tail: seq<bv8>)
    requires |p| == |q| == 4 && p != q
    ensures Crc(head + p + tail) != Crc(head + q + tail)
  {
    var start := TakeBytes(0xFFFF_FFFF, head);
    TakeBytesJoin(0xFFFF_FFFF, head, p);
    TakeBytesJoin(0xFFFF_FFFF, head, q);
    TakeBytesJoin(0xFFFF_FFFF, head + p, tail);
    TakeBytesJoin(0xFFFF_FFFF, head + q, tail);
    if Crc(head + p + tail) == Crc(head + q + tail) {
      XorCancels(0xFFFF_FFFF, TakeBytes(TakeBytes(start, p), tail), TakeBytes(TakeBytes(start, q), tail));
      TailIsInjective(TakeBytes(start, p), TakeBytes(start, q), tail);
      WindowTellsBytes(start, p, q);
      assert false;
    }
  }

  lemma WindowTellsBytes(start: bv32, p: seq<bv8>, q: seq<bv8>)
    requires |p| == |q| == 4 && TakeBytes(start, p) == TakeBytes(start, q)
    ensures p == q
  {
    assert p == [p[0], p[1], p[2], p[3]] && q == [q[0], q[1], q[2], q[3]];
    TakeFour(start, p[0], p[1], p[2], p[3]);
    TakeFour(start, q[0], q[1], q[2], q[3]);
    FourTellBytes(start, p[0], p[1], p[2], p[3], q[0], q[1], q[2], q[3], 8);
  }
}
