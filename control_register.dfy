/** The PPUCTRL register of the NES 2C02 picture processing unit, mapped at
    CPU address $2000. The CPU writes one byte to it; the rest of the PPU asks
    it four questions, each answered by a single bit of that byte. */
module PpuRegisters {

  type Byte = bv8
  type Word = bv16

  // Bit layout: every one of the eight bits is a named flag.
  const NAME_TABLE_1: Byte        := 0x01
  const NAME_TABLE_2: Byte        := 0x02
  const VRAM_ADD_INCREMENT: Byte  := 0x04
  const SPRITE_PATTERN_ADDR: Byte := 0x08
  const BG_PATTERN_ADDR: Byte     := 0x10
  const SPRITE_SIZE: Byte         := 0x20
  const MASTER_SLAVE_SELECT: Byte := 0x40
  const GENERATE_NMI: Byte        := 0x80

  /** The union of every declared flag. */
  const ALL_FLAGS: Byte := NAME_TABLE_1 | NAME_TABLE_2 | VRAM_ADD_INCREMENT | SPRITE_PATTERN_ADDR
                         | BG_PATTERN_ADDR | SPRITE_SIZE | MASTER_SLAVE_SELECT | GENERATE_NMI

  /** Reference reading of a byte: bit `k` (0 is the least significant) is 1. */
  predicate BitSet(b: Byte, k: nat)
    requires k < 8
  {
    (b >> k) & 1 == 1
  }

  /** Two bytes that agree on all eight bits are the same byte. */
  lemma BitsDetermineByte(a: Byte, b: Byte)
    requires forall k :: 0 <= k < 8 ==> BitSet(a, k) == BitSet(b, k)
    ensures a == b
  {
    assert BitSet(a, 0) == BitSet(b, 0) && BitSet(a, 1) == BitSet(b, 1);
    assert BitSet(a, 2) == BitSet(b, 2) && BitSet(a, 3) == BitSet(b, 3);
    assert BitSet(a, 4) == BitSet(b, 4) && BitSet(a, 5) == BitSet(b, 5);
    assert BitSet(a, 6) == BitSet(b, 6) && BitSet(a, 7) == BitSet(b, 7);
  }

  /** Bit `k` of a bitwise and, or and complement, read bit by bit. */
  lemma BitwiseByBit(a: Byte, b: Byte)
    ensures forall k :: 0 <= k < 8 ==> (BitSet(a & b, k) <==> BitSet(a, k) && BitSet(b, k))
    ensures forall k :: 0 <= k < 8 ==> (BitSet(a | b, k) <==> BitSet(a, k) || BitSet(b, k))
    ensures forall k :: 0 <= k < 8 ==> (BitSet(!a, k) <==> !BitSet(a, k))
  {
    forall k | 0 <= k < 8
      ensures BitSet(a & b, k) <==> BitSet(a, k) && BitSet(b, k)
      ensures BitSet(a | b, k) <==> BitSet(a, k) || BitSet(b, k)
      ensures BitSet(!a, k) <==> !BitSet(a, k)
    {
      if k == 0 {
      } else if k == 1 {
      } else if k == 2 {
      } else if k == 3 {
      } else if k == 4 {
      } else if k == 5 {
      } else if k == 6 {
      } else {
        assert k == 7;
      }
    }
  }

  /** Each named flag is exactly one bit, at the position the layout gives it,
      and together they cover the whole byte. */
  lemma FlagLayout()
    ensures NAME_TABLE_1 == 1 << 0 && NAME_TABLE_2 == 1 << 1
    ensures VRAM_ADD_INCREMENT == 1 << 2 && SPRITE_PATTERN_ADDR == 1 << 3
    ensures BG_PATTERN_ADDR == 1 << 4 && SPRITE_SIZE == 1 << 5
    ensures MASTER_SLAVE_SELECT == 1 << 6 && GENERATE_NMI == 1 << 7
    ensures ALL_FLAGS == 0xFF
  {
  }

  // The flag-set operations the register is built on, written directly on the byte.

  /** Keeps only the bits that are declared flags; since all eight bits are
      declared, no byte loses anything. */
  function FromBitsTruncate(b: Byte): (r: Byte)
    ensures r == b
  {
    b & ALL_FLAGS
  }

  /** Whether every bit of `other` is also set in `b`. */
  function Contains(b: Byte, other: Byte): (r: bool)
    ensures r <==> forall k :: 0 <= k < 8 ==> BitSet(other, k) ==> BitSet(b, k)
  {
    BitwiseByBit(b, other);
    assert (forall k :: 0 <= k < 8 ==> BitSet(other, k) ==> BitSet(b, k)) ==> b & other == other by {
      if forall k :: 0 <= k < 8 ==> BitSet(other, k) ==> BitSet(b, k) {
        BitsDetermineByte(b & other, other);
      }
    }
    b & other == other
  }

  /** Clears in `b` every bit that is set in `other`. */
  function Remove(b: Byte, other: Byte): (r: Byte)
    ensures forall k :: 0 <= k < 8 ==> (BitSet(r, k) <==> BitSet(b, k) && !BitSet(other, k))
  {
    BitwiseByBit(other, other);
    BitwiseByBit(b, !other);
    b & !other
  }

  /** Sets in `b` every bit that is set in `other`. */
  function Insert(b: Byte, other: Byte): (r: Byte)
    ensures forall k :: 0 <= k < 8 ==> (BitSet(r, k) <==> BitSet(b, k) || BitSet(other, k))
  {
    BitwiseByBit(b, other);
    b | other
  }

  /** The byte a register holding `current` holds after `data` is written:
      all current bits removed, then the bits of `data` inserted. Whatever it
      held before, the result is exactly `data`: an overwrite, not a merge. */
  function Overwrite(current: Byte, data: Byte): (r: Byte)
    ensures r == data
  {
    Insert(Remove(current, FromBitsTruncate(current)), FromBitsTruncate(data))
  }

  /** The byte held after the CPU writes `writes`, oldest first, to a register
      holding `initial`. */
  ghost function Replay(initial: Byte, writes: seq<Byte>): Byte
    decreases writes
  {
    if writes == [] then initial else Replay(Overwrite(initial, writes[0]), writes[1..])
  }

  /** Only the most recent write is visible; with no writes, the initial byte. */
  lemma {:induction false} ReplayYieldsLastWrite(initial: Byte, writes: seq<Byte>)
    ensures Replay(initial, writes) == if writes == [] then initial else writes[|writes| - 1]
    decreases writes
  {
    if writes != [] {
      ReplayYieldsLastWrite(Overwrite(initial, writes[0]), writes[1..]);
    }
  }

  /** Writing `a` and then `b` leaves the state that writing `b` alone leaves. */
  lemma {:induction false} LaterWriteWins(initial: Byte, a: Byte, b: Byte)
    ensures Replay(initial, [a, b]) == Replay(initial, [b])
  {
    ReplayYieldsLastWrite(initial, [a, b]);
    ReplayYieldsLastWrite(initial, [b]);
  }

  /** Writing the same byte twice is the same as writing it once. */
  lemma {:induction false} WriteIdempotent(initial: Byte, d: Byte)
    ensures Replay(initial, [d, d]) == Replay(initial, [d])
  {
    LaterWriteWins(initial, d, d);
  }

  class ControlRegister {
    /** The byte last written by the CPU. */
    var bits: Byte
    /** Every byte written since power-on, oldest first. */
    ghost var history: seq<Byte>

    /** The held byte is what the write history produces from power-on. */
    ghost predicate Valid()
      reads this
    {
      bits == Replay(0, history)
    }

    /** Power-on state: every bit clear. */
    constructor ()
      ensures Valid() && history == [] && bits == 0
    {
      bits := FromBitsTruncate(0);
      history := [];
    }

    /** A CPU write of `data`: remove every current bit, then insert the bits
        of `data`. */
    method Update(data: Byte)
      modifies this
      ensures Valid() && history == old(history) + [data]
      ensures bits == data
    {
      bits := Remove(bits, FromBitsTruncate(bits));
      bits := Insert(bits, FromBitsTruncate(data));
      history := history + [data];
      ReplayYieldsLastWrite(0, history);
    }

    /** How far the VRAM address moves per data-port access: 32 (one row of
        tiles) when bit 2 is set, 1 (one tile) otherwise. */
    function VramAddrIncrement(): (r: Byte)
      reads this
      ensures r == 1 || r == 32
      ensures r == 32 <==> BitSet(bits, 2)
    {
      if Contains(bits, VRAM_ADD_INCREMENT) then 32 else 1
    }

    /** Whether a non-maskable interrupt is raised at the start of vertical blank. */
    function ShouldGenerateVblankNmi(): (r: bool)
      reads this
      ensures r <==> BitSet(bits, 7)
    {
      Contains(bits, GENERATE_NMI)
    }

    /** Base of the pattern table background tiles are read from. */
    function BackgroundPatternAddress(): (r: Word)
      reads this
      ensures r == 0 || r == 0x1000
      ensures r == 0x1000 <==> BitSet(bits, 4)
    {
      if Contains(bits, BG_PATTERN_ADDR) then 0x1000 else 0
    }

    /** Base of the pattern table sprite tiles are read from. */
    function SpritePatternAddress(): (r: Word)
      reads this
      ensures r == 0 || r == 0x1000
      ensures r == 0x1000 <==> BitSet(bits, 3)
    {
      if Contains(bits, SPRITE_PATTERN_ADDR) then 0x1000 else 0
    }
  }

  /** A register with every bit clear steps the VRAM address by 1, raises no
      NMI and reads both pattern tables from address 0. */
  lemma PowerOnDecoding(reg: ControlRegister)
    requires reg.bits == 0
    ensures reg.VramAddrIncrement() == 1 && !reg.ShouldGenerateVblankNmi()
    ensures reg.BackgroundPatternAddress() == 0 && reg.SpritePatternAddress() == 0
  {
  }

  /** Each query looks at its own bit and at no other: two registers that agree
      on that bit give the same answer, whatever their other seven bits are. */
  lemma QueriesReadOnlyTheirBit(reg: ControlRegister, other: ControlRegister)
    ensures BitSet(reg.bits, 2) == BitSet(other.bits, 2) ==>
              reg.VramAddrIncrement() == other.VramAddrIncrement()
    ensures BitSet(reg.bits, 7) == BitSet(other.bits, 7) ==>
              reg.ShouldGenerateVblankNmi() == other.ShouldGenerateVblankNmi()
    ensures BitSet(reg.bits, 4) == BitSet(other.bits, 4) ==>
              reg.BackgroundPatternAddress() == other.BackgroundPatternAddress()
    ensures BitSet(reg.bits, 3) == BitSet(other.bits, 3) ==>
              reg.SpritePatternAddress() == other.SpritePatternAddress()
  {
  }

  /** Whatever was written before, every query answers from the bits of the
      most recent write. */
  lemma QueriesSeeLastWrite(reg: ControlRegister)
    requires reg.Valid() && reg.history != []
    ensures var last := reg.history[|reg.history| - 1];
      && (reg.VramAddrIncrement() == 32 <==> BitSet(last, 2))
      && (reg.ShouldGenerateVblankNmi() <==> BitSet(last, 7))
      && (reg.BackgroundPatternAddress() == 0x1000 <==> BitSet(last, 4))
      && (reg.SpritePatternAddress() == 0x1000 <==> BitSet(last, 3))
  {
    ReplayYieldsLastWrite(0, reg.history);
  }

  // Client scenarios: what a caller can conclude from the contracts above alone.

  /** Writing 0b1010_1010 and then 0b0101_0101 leaves exactly 0b0101_0101. */
  method UpdateScenario() returns (final: Byte)
    ensures final == 0x55
  {
    var reg := new ControlRegister();
    reg.Update(0xAA);
    reg.Update(0x55);
    final := reg.bits;
  }

  /** The increment is 1 at power-on and 32 once bit 2 is set. */
  method VramIncrementScenario() returns (before: Byte, after: Byte)
    ensures before == 1 && after == 32
  {
    var reg := new ControlRegister();
    before := reg.VramAddrIncrement();
    reg.Update(Insert(reg.bits, VRAM_ADD_INCREMENT));
    after := reg.VramAddrIncrement();
  }

  /** The background table is at 0 at power-on and at 0x1000 once bit 4 is set. */
  method BackgroundPatternScenario() returns (before: Word, after: Word)
    ensures before == 0 && after == 0x1000
  {
    var reg := new ControlRegister();
    before := reg.BackgroundPatternAddress();
    reg.Update(Insert(reg.bits, BG_PATTERN_ADDR));
    after := reg.BackgroundPatternAddress();
  }

  /** The sprite table is at 0 at power-on and at 0x1000 once bit 3 is set. */
  method SpritePatternScenario() returns (before: Word, after: Word)
    ensures before == 0 && after == 0x1000
  {
    var reg := new ControlRegister();
    before := reg.SpritePatternAddress();
    reg.Update(Insert(reg.bits, SPRITE_PATTERN_ADDR));
    after := reg.SpritePatternAddress();
  }
}
