# PPUCTRL control register, modelled in Dafny

This project models the control register (PPUCTRL, CPU address $2000) of an
NES 2C02 picture processing unit emulator. The register holds one byte. The CPU
overwrites the whole byte with a single write. Four read-only queries decode
single bits of it:

- the VRAM address step (1 or 32, bit 2);
- whether a vertical-blank NMI is generated (bit 7);
- the background pattern table base (0 or 0x1000, bit 4);
- the sprite pattern table base (0 or 0x1000, bit 3).

Everything lives in module `PpuRegisters` in `control_register.dfy`.

- The register is a class `ControlRegister` with one `bv8` field, `bits`.
  Its constructor clears every bit.
- `Update` works in two steps, as the source does: it removes every current
  bit, then inserts the bits of the written byte. It is proved to leave
  exactly the written byte.
- The flag-set operations the source gets from a macro crate
  (`from_bits_truncate`, `contains`, `remove`, `insert`) are written directly
  as bitwise and/or/not on the byte. Each is specified bit by bit against an
  independent reading of a byte, `BitSet(b, k)`.
- A ghost write history in the class ties the held byte to `Replay`, a fold of
  the overwrite over every write since power-on. A lemma proved by induction
  shows that only the most recent write is visible.
- The four queries are functions that only `reads this`, so they cannot change
  the stored byte.

## Model

| member | source | states |
|---|---|---|
| `PpuRegisters.FlagLayout` | src/ppu/registers/control_register.rs:6-13 | each named flag is exactly bit 0..7 in the declared order, and together the eight flags cover the whole byte (0xFF) |
| `PpuRegisters.FromBitsTruncate` | src/ppu/registers/control_register.rs:20 | truncating to the declared flags is the identity on every byte, because every bit is a declared flag |
| `PpuRegisters.Contains` | src/ppu/registers/control_register.rs:31 | holds exactly when every bit set in the mask is also set in the byte |
| `PpuRegisters.Remove` | src/ppu/registers/control_register.rs:26 | bit k of the result is set exactly when it is set in the byte and clear in the mask |
| `PpuRegisters.Insert` | src/ppu/registers/control_register.rs:27 | bit k of the result is set exactly when it is set in the byte or in the mask |
| `PpuRegisters.Overwrite` | src/ppu/registers/control_register.rs:25-28 | remove-all-then-insert yields exactly the written byte, whatever was held before: an overwrite, not an OR-merge |
| `PpuRegisters.ReplayYieldsLastWrite` | src/ppu/registers/control_register.rs:25-28 | after any sequence of writes the register holds the last byte written; with no writes, the initial byte |
| `PpuRegisters.LaterWriteWins` | src/ppu/registers/control_register.rs:66-77 | writing a and then b leaves the same byte as writing b alone |
| `PpuRegisters.WriteIdempotent` | src/ppu/registers/control_register.rs:25-28 | writing the same byte twice leaves the same byte as writing it once |
| `PpuRegisters.ControlRegister.constructor` | src/ppu/registers/control_register.rs:19-21 | a new register holds 0 and has an empty write history |
| `PpuRegisters.ControlRegister.Update` | src/ppu/registers/control_register.rs:25-28 | after the write the register holds exactly `data`; the write history gains `data` and still produces the held byte |
| `PpuRegisters.ControlRegister.VramAddrIncrement` | src/ppu/registers/control_register.rs:30-36 | the step is always 1 or 32, and it is 32 exactly when bit 2 is set; a function, so the byte is unchanged |
| `PpuRegisters.ControlRegister.ShouldGenerateVblankNmi` | src/ppu/registers/control_register.rs:38-40 | true exactly when bit 7 is set; a function, so the byte is unchanged |
| `PpuRegisters.ControlRegister.BackgroundPatternAddress` | src/ppu/registers/control_register.rs:42-48 | the base is always 0 or 0x1000, and it is 0x1000 exactly when bit 4 is set; a function, so the byte is unchanged |
| `PpuRegisters.ControlRegister.SpritePatternAddress` | src/ppu/registers/control_register.rs:50-56 | the base is always 0 or 0x1000, and it is 0x1000 exactly when bit 3 is set; a function, so the byte is unchanged |
| `PpuRegisters.PowerOnDecoding` | src/ppu/registers/control_register.rs:80-111 | with every bit clear the step is 1, no NMI is generated and both pattern bases are 0 |
| `PpuRegisters.QueriesReadOnlyTheirBit` | src/ppu/registers/control_register.rs:30-56 | two registers that agree on a query's bit give the same answer to that query, whatever their other seven bits |
| `PpuRegisters.QueriesSeeLastWrite` | src/ppu/registers/control_register.rs:25-56 | after any write history, every query answers from the bits of the most recent write |
| `PpuRegisters.UpdateScenario` | src/ppu/registers/control_register.rs:66-77 | writing 0b1010_1010 and then 0b0101_0101 leaves exactly 0b0101_0101 |
| `PpuRegisters.VramIncrementScenario` | src/ppu/registers/control_register.rs:81-89 | the step is 1 on a fresh register and 32 once bit 2 is inserted |
| `PpuRegisters.BackgroundPatternScenario` | src/ppu/registers/control_register.rs:92-100 | the background base is 0 on a fresh register and 0x1000 once bit 4 is inserted |
| `PpuRegisters.SpritePatternScenario` | src/ppu/registers/control_register.rs:103-111 | the sprite base is 0 on a fresh register and 0x1000 once bit 3 is inserted |

## Left out

- The rest of the flag-set API that the `bitflags` macro generates is not modelled. Only the four operations the register uses are.
- The nametable, sprite-size and master/slave bits (bits 0, 1, 5 and 6) are only named constants. The register has no query for them.
- The tests set a bit with `insert` on the register directly. The scenarios write `Insert(bits, mask)` through `Update` instead, which leaves the same byte.
- `Default` is derived for the register and yields the all-clear byte. It is modelled by the constructor, the one way to create a register.
- The CPU bus write that calls `Update` is not part of this model. Neither are the NMI dispatch and the rendering pipeline that consume the decoded values.
