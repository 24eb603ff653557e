# rustyboy core in Dafny

A model of the `core` crate of rustyboy, a Game Boy emulator written in Rust, together with
proofs about it. It covers:

- the Sharp LR35902 processor: the register file with its `Flags` byte, the ALU, the opcode
  bit fields, the full instruction set with the 0xCB table, and `cycle` with interrupt dispatch,
  HALT and the delayed interrupt master enable;
- the two memory decoders (`MemoryBus` and the older `Memory`), including echo RAM, the
  prohibited area and the 640-cycle OAM DMA copy;
- the small devices they route to: interrupt controller, timer, joypad and serial port;
- the video data structures: tiles, palettes, sprite attribute table, video RAM and screen;
- the cartridge header accessors and the ROM-only memory bank controller.

Each source file has a Dafny module of the same name; `cpu/mod.rs` and `bus.rs` are larger and
are split further. `cpu/mod.rs` becomes `CpuState` (fetch, stack, conditions), `CpuBus` (the
processor's view of memory), `Execute` (the two dispatch tables as functions),
`ExecuteProperties` and `ArmProperties` (lemmas about them), `CpuCycle` (the step with interrupt
handling) and `Cpu` (the class). `bus.rs` becomes `MemoryMap` (the address decoder it shares with
`memory.rs`) and `Bus` (DMA and the class). `Decimal` (a binary-coded-decimal reference for
DAA), `Address` (wrapping address arithmetic) and `Wrappers` (`Option`) are helpers with no
source file of their own. Where the Rust code updates an object in place
(registers, IME, interrupt controller, timer, joypad, serial port, RAM buffers, buses, CPU),
the module has a `class` whose methods are proved against a state function and a pure
specification function. Pure Rust code (bit helpers, ALU, opcode fields, palettes, cartridge
header) becomes Dafny functions and lemmas.

The processor is specified by `Execute` and `CpuCycle`. They are functions from a `Machine`
(registers, a 64 KiB flat bus with IF at 0xFF0F and IE at 0xFFFF, IME, the halted flag) to an
`Outcome` (the next machine and the cycles taken). Each `Cpu.Cpu` method is proved to compute
exactly that outcome. The lemmas in `ExecuteProperties`, `ArmProperties` and `CpuCycle` state
what the instructions and the step do.

Integer widths follow the source. Registers, addresses and data are `bv8`/`bv16`. The `pc`,
`sp` and HL updates and `addr + 1` in the 16-bit bus accesses wrap modulo 2^16. That is what a
release build of the Rust code does; a debug build panics at those overflows instead.

Where the hardware documentation and the code disagree, the model follows the code:

- the joypad byte is active-high (a pressed button reads 1) and reads 0 when no group is selected;
- `sold_in_japan` is true when the header byte 0x14A is 0;
- when an interrupt becomes pending while the CPU is halted with IME off, `handle_interrupts`
  adds one to PC. That PC already points past the HALT opcode, so the byte after HALT is
  skipped (`CpuCycle.HaltWakeSkipsNextByte`), rather than fetched twice as on hardware.

## Model

| member | source | states |
|---|---|---|
| Bits.ModifyBit | core/src/bits.rs:1-8 | the chosen bit ends up equal to `setTo` and the other seven bits are kept |
| Bits.ToggleBit | core/src/bits.rs:10-13 | the chosen bit is inverted and the other seven bits are kept |
| Bits.GetBits | core/src/bits.rs:20-24 | the result is below 2^(to-from), its bit j is bit from+j of the input, and its higher bits are clear; from ≤ to and a width of at most 7 are required, as `2_u8.pow` overflows beyond that |
| Bits.BitsDetermineByte | core/src/bits.rs:15-18 | two bytes that agree on every `get_bit` are equal |
| Bits.SetThenGet | core/src/bits.rs:1-18 | `get_bit` after `modify_bit` returns the written value, and modifying twice to the same value is the same as once |
| Bits.ModifyKeepsOtherBits | core/src/bits.rs:1-8 | `modify_bit` leaves every other bit's `get_bit` unchanged |
| Bits.ToggleTwice | core/src/bits.rs:10-13 | toggling a bit twice gives the byte back |
| Bits.ModifyToSame | core/src/bits.rs:1-18 | writing a bit's own value back changes nothing |
| Bits.GetBitsExamples | core/src/bits.rs:53-57 | the two vectors of the module's test: bits 1..4 of 0b11100 are 0b110, and an empty range gives 0 |
| Opcode.Opcode.Xxx | core/src/cpu/opcode.rs:11-14 | bits 3..5 of the opcode, a value in 0..7 |
| Opcode.Opcode.Yyy | core/src/cpu/opcode.rs:16-19 | bits 0..2 of the opcode, a value in 0..7 |
| Opcode.Opcode.Rr | core/src/cpu/opcode.rs:21-25 | bits 4..5 of the opcode, a value in 0..3 |
| Opcode.Opcode.Ff | core/src/cpu/opcode.rs:27-31 | bits 3..4 of the opcode, a value in 0..3 |
| Opcode.Decomposition | core/src/cpu/opcode.rs:12-19 | every opcode is its top two bits, `xxx << 3` and `yyy` put together |
| Opcode.FieldsOverlap | core/src/cpu/opcode.rs:12-31 | `rr` is the top two bits of `xxx` and `ff` its bottom two |
| Registers.Flags.SetCarry | core/src/cpu/registers.rs:151 | C (bit 4) takes the given value; H, N, Z and the low nibble are kept |
| Registers.Flags.SetHalfCarry | core/src/cpu/registers.rs:152 | H (bit 5) takes the given value; C, N, Z and the low nibble are kept |
| Registers.Flags.SetSubtraction | core/src/cpu/registers.rs:153 | N (bit 6) takes the given value; C, H, Z and the low nibble are kept |
| Registers.Flags.SetZero | core/src/cpu/registers.rs:154 | Z (bit 7) takes the given value; C, H, N and the low nibble are kept |
| Registers.Flags.ToggleCarry | core/src/cpu/registers.rs:151 | C is inverted; H, N, Z and the low nibble are kept |
| Registers.NewFlags | core/src/cpu/registers.rs:142-149 | C, H, N and Z are exactly the four arguments and the low nibble is clear |
| Registers.FlagsLayout | core/src/cpu/registers.rs:141-155 | the flags byte built from four flags is Z·0x80 \| N·0x40 \| H·0x20 \| C·0x10: Z is bit 7, N bit 6, H bit 5, C bit 4, low nibble 0 |
| Registers.FlagsDeterminedByFourBits | core/src/cpu/registers.rs:141-155 | two flag bytes with a clear low nibble are equal when C, H, N and Z agree |
| Registers.FromBeBytes | core/src/cpu/registers.rs:8-10 | `u16::from_be_bytes`: the first byte is the high half |
| Registers.HighByte | core/src/cpu/registers.rs:12-14 | the first byte of `to_be_bytes` is the word shifted right by 8 |
| Registers.LowByte | core/src/cpu/registers.rs:12-14 | the second byte of `to_be_bytes` is the word's low eight bits |
| Registers.BytesRoundTrip | core/src/cpu/registers.rs:6-16 | splitting a word into bytes and joining them gives it back, and the other way round |
| Registers.Get8 | core/src/cpu/registers.rs:33-45 | indices 0..5 read B, C, D, E, H, L, index 6 the raw flags byte and index 7 A; other indices are excluded since they panic |
| Registers.Put8 | core/src/cpu/registers.rs:47-60 | `get8` of the written index returns the value, the seven other indices and SP and PC are unchanged; index 6 stores the raw byte, low nibble included |
| Registers.Af | core/src/cpu/registers.rs:62-64 | A is the high byte and the flags byte the low byte |
| Registers.Bc | core/src/cpu/registers.rs:71 | B is the high byte and C the low byte |
| Registers.De | core/src/cpu/registers.rs:72 | D is the high byte and E the low byte |
| Registers.Hl | core/src/cpu/registers.rs:73 | H is the high byte and L the low byte |
| Registers.PutAf | core/src/cpu/registers.rs:66-69 | `af()` afterwards is the value with its low nibble cleared; only A and the flags change |
| Registers.PutBc | core/src/cpu/registers.rs:12-14 | `bc()` afterwards is the value, high byte in B and low byte in C; nothing else changes |
| Registers.PutDe | core/src/cpu/registers.rs:12-14 | `de()` afterwards is the value, high byte in D and low byte in E; nothing else changes |
| Registers.PutHl | core/src/cpu/registers.rs:12-14 | `hl()` afterwards is the value, high byte in H and low byte in L; nothing else changes |
| Registers.Get16 | core/src/cpu/registers.rs:109-117 | indices 0, 1, 2 read BC, DE, HL and index 3 reads the caller's fourth pair |
| Registers.Get16WithSp | core/src/cpu/registers.rs:75-77 | index 3 reads SP, the others as `get16` |
| Registers.Get16WithAf | core/src/cpu/registers.rs:79-81 | index 3 reads AF, the others as `get16` |
| Registers.Put16 | core/src/cpu/registers.rs:99-107 | indices 0..2 write BC, DE or HL and leave the other pairs, A, flags, SP and PC alone; index 4 changes nothing; 3 and above 4 are excluded since they panic |
| Registers.Put16WithSp | core/src/cpu/registers.rs:83-89 | index 3 writes SP, the others as `set16`; every pair not named is unchanged |
| Registers.Put16WithAf | core/src/cpu/registers.rs:91-97 | index 3 writes AF with the low flag nibble cleared, the others as `set16`; SP and PC are unchanged |
| Registers.PairWriteBack | core/src/cpu/registers.rs:79-97 | writing back the pair just read is the identity, except that AF loses the flags' low nibble |
| Registers.FlagSettersExample | core/src/cpu/registers.rs:208-218 | the source's flag test: setting Z and H, then toggling C and clearing H, gives the expected flags |
| Registers.PairExample | core/src/cpu/registers.rs:176-200 | the source's pair test: 0x1234 splits into 0x12 and 0x34, B = 0xAB and C = 0xCD read as 0xABCD, and AF = 0xFFFF reads back as 0xFFF0 |
| Registers.SetAfExample | core/src/cpu/registers.rs:203-206 | the source's flag test: AF = 0x0050 leaves exactly C and N set |
| Registers.Registers.constructor | core/src/cpu/registers.rs:18-30 | the register object holds the given ten values |
| Registers.Registers.Set8 | core/src/cpu/registers.rs:47-60 | the object's registers become `Put8` of the old ones |
| Registers.Registers.SetAf | core/src/cpu/registers.rs:66-69 | the object's registers become `PutAf` of the old ones |
| Registers.Registers.SetBc | core/src/cpu/registers.rs:12-14 | the object's registers become `PutBc` of the old ones |
| Registers.Registers.SetDe | core/src/cpu/registers.rs:12-14 | the object's registers become `PutDe` of the old ones |
| Registers.Registers.SetHl | core/src/cpu/registers.rs:12-14 | the object's registers become `PutHl` of the old ones |
| Registers.Registers.Set16 | core/src/cpu/registers.rs:99-107 | the object's registers become `Put16` of the old ones |
| Registers.Registers.Set16WithSp | core/src/cpu/registers.rs:83-89 | the object's registers become `Put16WithSp` of the old ones |
| Registers.Registers.Set16WithAf | core/src/cpu/registers.rs:91-97 | the object's registers become `Put16WithAf` of the old ones |
| Alu.CarryIn | core/src/cpu/alu.rs:41 | the carry flag as the number 0 or 1 |
| Alu.AddHalfCarry | core/src/cpu/alu.rs:265 | `(x & 0xF) + (y & 0xF) + c > 0xF`, stated as: the wrapped low nibble of `x + y + c` came out smaller (or equal, with c = 1) |
| Alu.AddCarry | core/src/cpu/alu.rs:45 | `x + y + c > 0xFF`, stated as: the wrapped sum came out smaller (or equal, with c = 1) |
| Alu.SubHalfCarry | core/src/cpu/alu.rs:272 | `(x & 0xF) < (y & 0xF) + c`, stated as: the wrapped low nibble of `x - y - c` came out larger (or equal, with c = 1) |
| Alu.SubCarry | core/src/cpu/alu.rs:66 | `x < y + c`, stated as: the wrapped difference came out larger (or equal, with c = 1) |
| Alu.SetZeroSubtractionHalfCarryAdd | core/src/cpu/alu.rs:261-266 | Z iff the result is 0, N clear, H the addition half-carry; C and the low nibble kept |
| Alu.SetZeroSubtractionHalfCarrySub | core/src/cpu/alu.rs:268-273 | Z iff the result is 0, N set, H the subtraction half-borrow; C and the low nibble kept |
| Alu.Inc8 | core/src/cpu/alu.rs:5-10 | the result is x + 1 wrapping; Z iff x was 0xFF, N clear, H iff the low nibble was 0xF, C unchanged |
| Alu.Inc16 | core/src/cpu/alu.rs:12-15 | the result is x + 1 modulo 2^16: above x, or 0 when x was 0xFFFF; no flags |
| Alu.Dec8 | core/src/cpu/alu.rs:17-22 | the result is x - 1 wrapping; Z iff x was 1, N set, H iff the low nibble was 0, C unchanged |
| Alu.Dec16 | core/src/cpu/alu.rs:24-27 | the result is x − 1 modulo 2^16: below x, or 0xFFFF when x was 0; no flags |
| Alu.IncDec16Inverse | core/src/cpu/alu.rs:12-27 | `inc16` and `dec16` undo each other |
| Alu.OverflowingAddWraps | core/src/cpu/alu.rs:30-34 | `overflowing_add`: subtracting y gives x back, and the carry is reported exactly when the sum wrapped below x |
| Alu.OverflowingSubWraps | core/src/cpu/alu.rs:51-55 | `overflowing_sub`: adding y gives x back, and the borrow is reported exactly when the difference wrapped above x |
| Alu.Add8 | core/src/cpu/alu.rs:29-37 | the result is x + y mod 256; Z iff it is 0; N clear; H iff the low nibbles carry; C iff the sum exceeds 255 (the wrapped result is smaller than x) |
| Alu.Adc8 | core/src/cpu/alu.rs:39-48 | the result is x + y + carry mod 256; Z iff it is 0; N clear; H and C count the incoming carry in both tests |
| Alu.Sub8 | core/src/cpu/alu.rs:50-58 | the result is x − y mod 256; Z iff x = y; N set; H iff the low nibble of x is below that of y; C iff x < y |
| Alu.Sbc8 | core/src/cpu/alu.rs:60-69 | the result is x − y − carry mod 256; Z iff it is 0; N set; H iff `(x&0xF) < (y&0xF) + c`; C iff x < y + c |
| Alu.AdcWithoutCarry | core/src/cpu/alu.rs:39-48 | with C clear, ADC gives exactly ADD's result and flags |
| Alu.SbcWithoutCarry | core/src/cpu/alu.rs:60-69 | with C clear, SBC gives exactly SUB's result and flags |
| Alu.FlagsAgree | core/src/cpu/registers.rs:151-154 | flags with the same low nibble and the same C, H, N and Z are equal |
| Alu.Add16 | core/src/cpu/alu.rs:71-80 | the result is x + y mod 2^16; Z unchanged; N clear; H iff there is a carry out of bit 11; C iff the sum overflows 16 bits |
| Alu.SignExtend | core/src/cpu/alu.rs:85 | `y as i8 as i16 as u16`: the low byte is y and the high byte is 0xFF exactly when bit 7 of y is set |
| Alu.Add16WithSignedByteOperand | core/src/cpu/alu.rs:82-93 | the result is x plus the sign-extended byte mod 2^16; Z and N clear; H and C are the unsigned carries out of bits 3 and 7 |
| Alu.BitwiseAnd | core/src/cpu/alu.rs:95-100 | the result is x & y; Z iff it is 0; N and C clear; H set |
| Alu.BitwiseOr | core/src/cpu/alu.rs:102-107 | the result is x \| y; Z iff it is 0; N, H and C clear |
| Alu.BitwiseXor | core/src/cpu/alu.rs:109-114 | the result is x ^ y; Z iff x = y; N, H and C clear |
| Alu.BitwiseNot | core/src/cpu/alu.rs:116-121 | the result is 255 − x (the complement); N and H set; Z and C unchanged |
| Alu.RotateLeft | core/src/cpu/alu.rs:123-133 | a circular rotate left by one; C is the old bit 7; Z iff x is 0; N and H clear |
| Alu.RotateLeftThroughCarryFlag | core/src/cpu/alu.rs:135-145 | x shifted left with the old C as the new bit 0; C is the old bit 7; Z iff the result is 0; N and H clear |
| Alu.ShiftLeft | core/src/cpu/alu.rs:147-153 | x shifted left with 0 in bit 0; C is the old bit 7; Z iff the low seven bits of x were 0; N and H clear |
| Alu.RotateRight | core/src/cpu/alu.rs:155-165 | a circular rotate right by one; C is the old bit 0; Z iff x is 0; N and H clear |
| Alu.RotateRightThroughCarryFlag | core/src/cpu/alu.rs:167-177 | x shifted right with the old C as the new bit 7; C is the old bit 0; Z iff the result is 0; N and H clear |
| Alu.ShiftRightLeaveMsb | core/src/cpu/alu/mod.rs:182-193 | bit 7 is kept and bits 0..6 are x >> 1; C is the old bit 0; Z iff x ≤ 1; N and H clear |
| Alu.ShiftRightHalvesSigned | core/src/cpu/alu/mod.rs:182-193 | read as a signed byte, the result is x halved, rounded down |
| Alu.ShiftRightClearMsb | core/src/cpu/alu/mod.rs:195-201 | the result is x / 2, so below 0x80; C is the old bit 0; Z iff x ≤ 1; N and H clear |
| Alu.RotatesUndo | core/src/cpu/alu.rs:123-177 | rotating right then left gives x back, for both the circular and the through-carry rotates |
| Alu.RotateLeftExample | core/src/cpu/alu.rs:413-419 | the source's rotation test: 0b11001100 becomes 0b10011001 with only C set |
| Alu.TestBit | core/src/cpu/alu/mod.rs:203-209 | Z iff the tested bit is clear; N clear; H set; C and the low nibble kept |
| Alu.SwapNibbles | core/src/cpu/alu.rs:208-214 | the two nibbles trade places; Z iff the value is 0; N, H and C clear |
| Alu.SwapInvolution | core/src/cpu/alu.rs:208-214 | swapping twice gives the value back |
| Alu.SwapExample | core/src/cpu/alu.rs:402-411 | the source's swap test: 0xAB becomes 0xBA with every flag cleared, and swapping 0 sets Z |
| Alu.Daa | core/src/cpu/alu/mod.rs:219-246 | the value is the decimal adjustment; N unchanged; H clear; Z iff the result is 0; C iff C was set or (N clear and the value above 0x99) |
| Alu.DaaKeepsValidBcd | core/src/cpu/alu/mod.rs:226-238 | with N, H and C clear and both nibbles at most 9, DAA returns the value unchanged |
| Alu.DaaAfterAdd | core/src/cpu/alu/mod.rs:219-246 | ADD of two BCD bytes followed by DAA gives their decimal sum and the decimal carry |
| Alu.DaaAfterSub | core/src/cpu/alu/mod.rs:219-246 | SUB of two BCD bytes followed by DAA gives their decimal difference and the decimal borrow |
| Alu.NibbleCarry | core/src/cpu/alu.rs:265 | the source's half-carry test `(x&0xF)+(y&0xF) > 0xF` agrees with the wrapped-nibble form used in the model |
| Alu.ArithmeticExamples | core/src/cpu/alu.rs:327-371 | results and flags of the source's 8-bit addition and subtraction tests |
| Alu.Add16Examples | core/src/cpu/alu.rs:373-385 | the source's 16-bit addition test: Z stays set, H and C as listed |
| Alu.BitwiseExamples | core/src/cpu/alu.rs:387-400 | the source's AND, OR, XOR and complement tests: results, H set only by AND and by CPL, Z and C kept by CPL |
| Decimal.DecimalAdjust | core/src/cpu/alu/mod.rs:219-246 | the high correction, and the carry out, apply iff C was set or (after an addition) the value exceeds 0x99 |
| Decimal.AdjustAfterAdd | core/src/cpu/alu/mod.rs:219-246 | after adding two BCD bytes, the adjustment with the addition's H and C gives the digit-wise decimal sum and carry |
| Decimal.AdjustAfterSub | core/src/cpu/alu/mod.rs:219-246 | after subtracting two BCD bytes, the adjustment with the subtraction's H and C gives the digit-wise decimal difference and borrow |
| Ime.Countdown | core/src/cpu/ime.rs:25-38 | a pending delay of 0 is consumed (None), a larger one goes down by one, and no pending change stays None |
| Ime.Tick | core/src/cpu/ime.rs:24-40 | a due disable turns IME off whatever else happens (it is applied second); otherwise a due enable turns it on; otherwise the value is kept; both delays count down |
| Ime.EnableTakesEffectAfterDelay | core/src/cpu/ime.rs:24-44 | after `enable(n)` the value is unchanged for n cycles and is on after the (n+1)-th, with nothing left pending |
| Ime.EnableCountsDown | core/src/cpu/ime.rs:24-44 | after k ≤ n cycles the enable delay reads n − k, and one more cycle at k = n turns IME on |
| Ime.DisableTakesEffectAfterDelay | core/src/cpu/ime.rs:24-48 | after `disable(n)` the value is unchanged for n cycles and is off after the (n+1)-th |
| Ime.DisableCountsDown | core/src/cpu/ime.rs:24-48 | after k ≤ n cycles the disable delay reads n − k, and one more cycle at k = n turns IME off |
| Ime.IdleIsStable | core/src/cpu/ime.rs:24-40 | with nothing pending, any number of cycles changes nothing |
| Ime.InterruptMasterEnable.constructor | core/src/cpu/ime.rs:12-18 | `new(v)` holds v with no pending change |
| Ime.InterruptMasterEnable.Cycle | core/src/cpu/ime.rs:24-40 | the object's state becomes `Tick` of the old one |
| Ime.InterruptMasterEnable.Enable | core/src/cpu/ime.rs:42-44 | only the pending enable is replaced, overwriting any earlier one |
| Ime.InterruptMasterEnable.Disable | core/src/cpu/ime.rs:46-48 | only the pending disable is replaced, overwriting any earlier one |
| Ime.ImeExamples | core/src/cpu/ime.rs:55-87 | the source's two tests: `enable(0)` is not immediate but holds after one cycle, `disable(0)` likewise, `enable(1)` after two cycles, `disable(3)` after four |
| Interrupts.Interrupt.Bit | core/src/interrupts.rs:62-65 | the bit of an interrupt is its position 0..4 in the enum |
| Interrupts.Interrupt.HandlerAddress | core/src/interrupts.rs:57-60 | 0x40 + 8·bit, so one of 0x40, 0x48, 0x50, 0x58, 0x60 |
| Interrupts.FromIndex | core/src/interrupts.rs:41-54 | `Interrupt::from_u32`: an interrupt exactly for indices below 5, and the one with that bit |
| Interrupts.FromIndexOfBit | core/src/interrupts.rs:41-65 | converting an interrupt's bit back gives the same interrupt |
| Interrupts.TrailingZerosFrom | core/src/interrupts.rs:40 | the first set bit at or above `from`, or 8 when there is none |
| Interrupts.TrailingZeros | core/src/interrupts.rs:40 | `trailing_zeros`: the lowest set bit, every bit below it clear, or 8 for zero |
| Interrupts.NextTriggeredIsLowestPending | core/src/interrupts.rs:34-42 | None when nothing is both flagged and enabled; otherwise a result is flagged and enabled with no lower bit both flagged and enabled, and a None result means no interrupt bit 0..4 is both |
| Interrupts.AndBit | core/src/interrupts.rs:35 | a bit of `flag & enable` is set iff it is set in both |
| Interrupts.Interrupts.constructor | core/src/interrupts.rs:14-19 | a new controller has enable 0 and flag 0xE1 |
| Interrupts.Interrupts.NextTriggeredInterrupt | core/src/interrupts.rs:34-42 | None when IF & IE is 0; a result is flagged and enabled and no lower interrupt is both; None otherwise means no bit 0..4 is both |
| Interrupts.Interrupts.Flag | core/src/interrupts.rs:23-30 | the interrupt's flag bit takes the value, `is_flagged` then returns it, and no other flag bit changes |
| Interrupts.PriorityExamples | core/src/interrupts.rs:32-42 | VBlank wins when everything is pending, Timer wins over Joypad, and only-unused bits or nothing enabled give None |
| CpuState.Fetch16IsTwoFetch8 | core/src/cpu/mod.rs:926-936 | `fetch16` reads the same little-endian word and advances pc by the same two bytes as two `fetch8` calls, low byte first |
| CpuState.PushThenPop | core/src/cpu/mod.rs:938-947 | popping right after a push returns the pushed word and restores every register, sp included |
| CpuState.PopReadsPushedWord | core/src/cpu/mod.rs:938-947 | the word `stack_pop` reads back is the one `stack_push` wrote, even when the stack straddles IF or IE |
| CpuState.Condition | core/src/cpu/mod.rs:949-957 | ff = 0, 1, 2, 3 selects NZ, Z, NC, C: bit 1 picks the flag and bit 0 whether it must be set |
| CpuState.ConditionsComplement | core/src/cpu/mod.rs:949-957 | conditions 0/1 and 2/3 are exact complements |
| CpuState.UpdateRegister | core/src/cpu/mod.rs:959-963 | the selected register receives the operation's result and the flags its flag output; the bus, the other registers, sp and pc are unchanged |
| CpuState.UpdateAtHl | core/src/cpu/mod.rs:965-969 | the byte at HL receives the operation's result and the flags its flag output; no other byte and no other register changes |
| CpuBus.Cell | core/src/bus.rs:67-110 | every 16-bit address selects exactly one of the 64 KiB cells |
| CpuBus.CellInjective | core/src/bus.rs:67-110 | distinct addresses select distinct cells |
| CpuBus.Load | core/src/bus.rs:89-104 | 0xFF0F reads IF, 0xFFFF reads IE, every other address reads its memory cell |
| CpuBus.Store | core/src/bus.rs:144-163 | 0xFF0F writes IF, 0xFFFF writes IE, every other address writes only its own cell |
| CpuBus.LoadAfterStore | core/src/bus.rs:67-166 | a read after a write at the same address returns the value written, and a write leaves every other address unchanged |
| CpuBus.Load16AfterStore16 | core/src/bus.rs:168-172 | `read16` after `write16` at the same address returns the word, even where addr + 1 wraps to 0; no byte outside the two written changes |
| CpuBus.Store16Bytes | core/src/bus.rs:168-172 | `write16` stores the low byte at addr and the high byte at addr + 1 |
| CpuBus.FlatBus.constructor | core/src/bus.rs:42-58 | a new bus holds the given image with IF = 0xE1 and IE = 0 |
| CpuBus.FlatBus.Read8 | core/src/bus.rs:67-110 | returns `Load` of the bus state |
| CpuBus.FlatBus.Write8 | core/src/bus.rs:118-166 | the new bus state is `Store` of the old one |
| CpuBus.FlatBus.Read16 | core/src/bus.rs:112-116 | returns the little-endian word at addr, addr + 1 |
| CpuBus.FlatBus.Write16 | core/src/bus.rs:168-172 | the new bus state is `Store16` of the old one |
| Execute.StepHl | core/src/cpu/mod.rs:218-244 | HL after LD A, [HL±] and LD [HL±], A is one below or one above the old HL, wrapping |
| Execute.Execute | core/src/cpu/mod.rs:105-736 | every opcode leaves the bus 64 KiB; only RETI, DI and EI touch IME, and only HALT and STOP touch the halted flag |
| Execute.ExecuteCb | core/src/cpu/mod.rs:738-924 | no 0xCB-prefixed opcode touches IME or the halted flag |
| Execute.RelativeTargetIsSignedOffset | core/src/cpu/mod.rs:600-617 | JR moves PC forward by offsets below 0x80 and back by 0x100 − n for the others, wrapping at 16 bits |
| Execute.ExecuteHalt | core/src/cpu/mod.rs:692-696 | HALT sets the halted flag and changes nothing else; 4 cycles |
| Execute.ExecuteEnableInterrupts | core/src/cpu/mod.rs:718-722 | EI schedules IME on with delay 1 and changes nothing else; 4 cycles |
| Execute.ExecuteDisableInterrupts | core/src/cpu/mod.rs:712-716 | DI schedules IME off with delay 1 and changes nothing else; 4 cycles |
| ExecuteProperties.UndefinedIsOutsideEveryGroup | core/src/cpu/mod.rs:731-734 | the eleven undefined opcodes are exactly the bytes no other arm of `execute` claims |
| ExecuteProperties.UndefinedIsNoOperation | core/src/cpu/mod.rs:731-734 | an undefined opcode changes nothing and takes 4 cycles |
| ExecuteProperties.JumpConditionalCycles | core/src/cpu/mod.rs:588-598 | JP cc, nn: PC becomes nn and 16 cycles when the condition holds, otherwise PC steps past nn and 12 cycles; nothing else changes |
| ExecuteProperties.JumpRelativeConditionalCycles | core/src/cpu/mod.rs:607-617 | JR cc, n: PC becomes the signed target and 12 cycles when the condition holds, otherwise PC steps past n and 8 cycles |
| ExecuteProperties.JumpRelativeMovesPc | core/src/cpu/mod.rs:600-605 | JR n: PC becomes the address past the offset moved by the signed offset, 12 cycles, nothing else changes |
| ExecuteProperties.JumpAbsoluteLoadsPc | core/src/cpu/mod.rs:576-580 | JP nn: PC becomes the word after the opcode, 16 cycles, nothing else changes |
| ExecuteProperties.JumpToHl | core/src/cpu/mod.rs:582-586 | JP HL: PC becomes HL, 4 cycles, nothing else changes |
| ExecuteProperties.CallConditionalCycles | core/src/cpu/mod.rs:627-638 | CALL cc, nn taken: SP down by 2, the return address (past nn) pushed, PC = nn, 24 cycles; not taken: PC past nn, 12 cycles, nothing else changes |
| ExecuteProperties.CallPushesReturnAddress | core/src/cpu/mod.rs:627-638 | a taken CALL cc leaves the address after the instruction on the stack |
| ExecuteProperties.ReturnConditionalCycles | core/src/cpu/mod.rs:646-654 | RET cc: pops PC, 20 cycles, when the condition holds; otherwise nothing changes, 8 cycles |
| ExecuteProperties.RestartJumpsToVector | core/src/cpu/mod.rs:663-669 | RST pushes PC and jumps to opcode − 0xC7, which is 8 × bits 3..5, one of 0x00..0x38; 16 cycles |
| ExecuteProperties.RestartPushesReturnAddress | core/src/cpu/mod.rs:663-669 | the RST arm itself: SP down by 2, PC pushed, PC = opcode − 0xC7 |
| ExecuteProperties.RestartVector | core/src/cpu/mod.rs:665 | opcode − 0xC7 equals 8 × bits 3..5 and is at most 0x38 for every RST opcode |
| ExecuteProperties.ReturnFromInterruptEnables | core/src/cpu/mod.rs:656-661 | RETI pops PC and schedules IME on with delay 0, so IME is on after this step's tick unless a due disable overrides it; 16 cycles |
| ExecuteProperties.CallThenReturn | core/src/cpu/mod.rs:619-644 | CALL nn followed by RET restores every register except PC, which ends just past the CALL; 40 cycles |
| ExecuteProperties.RestartThenReturn | core/src/cpu/mod.rs:640-669 | RST followed by RET restores every register; 32 cycles |
| ExecuteProperties.PushThenPopPair | core/src/cpu/mod.rs:277-290 | PUSH rr then POP rr restores every register, except that for AF the flags' low nibble is cleared; 16 + 12 cycles |
| ExecuteProperties.LoadRegisterFields | core/src/cpu/mod.rs:109-122 | no LD r, r' opcode names the byte at HL in either field |
| ExecuteProperties.LoadRegisterCopies | core/src/cpu/mod.rs:109-122 | LD r, r' copies r' into r and changes no other register, nor SP, PC or the bus; 4 cycles |
| ExecuteProperties.CompareAndSubtractFields | core/src/cpu/mod.rs:338-388 | the SUB opcode 0x28 below a CP r opcode names the same register |
| ExecuteProperties.CompareIsSubtractionKeepingA | core/src/cpu/mod.rs:338-388 | CP r leaves the machine exactly as SUB r would, except that A keeps its value; Z iff A = r, C iff A < r |
| ExecuteProperties.RotateAccumulatorClearsZero | core/src/cpu/mod.rs:544-572 | RLCA, RLA, RRCA and RRA clear Z, N and H, put bit 7 (left) or bit 0 (right) of A in C, and change only A and the flags; 4 cycles |
| ExecuteProperties.BitOpcodeFields | core/src/cpu/mod.rs:848-922 | bits 3..5 of a BIT/RES/SET opcode name the bit and bits 0..2 the register |
| ExecuteProperties.TestBitReadsBit | core/src/cpu/alu.rs:201-207 | BIT sets Z exactly when the tested bit is 0 |
| ExecuteProperties.SetOrResetThenTest | core/src/cpu/mod.rs:848-913 | after SET b, r, BIT b, r clears Z; after RES b, r it sets Z; 8 cycles each |
| ArmProperties.LoadImmediateReadsOperand | core/src/cpu/mod.rs:124-130 | LD r, n puts the byte after the opcode into r; only r and PC (+1) change; 8 cycles |
| ArmProperties.LoadFromHlReadsMemory | core/src/cpu/mod.rs:132-137 | LD r, [HL] puts the byte at HL into r; nothing else changes; 8 cycles |
| ArmProperties.StoreToHlWritesRegister | core/src/cpu/mod.rs:139-144 | LD [HL], r writes r at HL and at no other address; registers unchanged; 8 cycles |
| ArmProperties.StoreImmediateToHlWritesOperand | core/src/cpu/mod.rs:146-150 | LD [HL], n writes the byte after the opcode at HL only; PC + 1; 12 cycles |
| ArmProperties.LoadAccumulatorSteppingReads | core/src/cpu/mod.rs:218-237 | LD A, [HL∓]: A = the byte at the old HL, then HL one down or up, nothing else changes; 8 cycles |
| ArmProperties.StoreAccumulatorSteppingWrites | core/src/cpu/mod.rs:225-244 | LD [HL∓], A writes A at the old HL and at no other address; 8 cycles |
| ArmProperties.StoreAccumulatorSteppingMovesHl | core/src/cpu/mod.rs:225-244 | the same stores step HL one down or up and change no other register |
| ArmProperties.LoadAccumulatorHighReads | core/src/cpu/mod.rs:204-209 | LDH A, [n] reads 0xFF00 + n, always in the high page; PC + 1; 12 cycles |
| ArmProperties.StoreAccumulatorHighWrites | core/src/cpu/mod.rs:211-216 | LDH [n], A writes A at 0xFF00 + n only; PC + 1; 12 cycles |
| ArmProperties.LoadAccumulatorDirectReads | core/src/cpu/mod.rs:176-181 | LD A, [nn] reads the byte at the word after the opcode; PC + 2; 16 cycles |
| ArmProperties.StoreAccumulatorDirectWrites | core/src/cpu/mod.rs:183-188 | LD [nn], A writes A at nn only; PC + 2; 16 cycles |
| ArmProperties.LoadPairImmediateReadsOperand | core/src/cpu/mod.rs:248-254 | LD rr, nn puts the word after the opcode into BC, DE, HL or SP; PC + 2; 12 cycles |
| ArmProperties.StoreStackPointerWrites | core/src/cpu/mod.rs:256-260 | LD [nn], SP writes SP little-endian at nn and changes only those two bytes; 20 cycles |
| ArmProperties.LoadHlStackOffsetAdds | core/src/cpu/mod.rs:262-269 | LD HL, SP+n: HL = SP + the signed byte n, SP kept, Z and N cleared; 12 cycles |
| ArmProperties.LoadStackPointerFromHl | core/src/cpu/mod.rs:271-275 | LD SP, HL copies HL into SP and changes nothing else; 8 cycles |
| ArmProperties.AddHlAddsPair | core/src/cpu/mod.rs:510-518 | ADD HL, rr: HL = HL + rr wrapping, C iff it wrapped, Z kept, N cleared, only HL and the flags change; 8 cycles |
| ArmProperties.IncThenDecPair | core/src/cpu/mod.rs:520-532 | INC rr then DEC rr on the same pair restore the whole machine; 16 cycles |
| ArmProperties.PairRestored | core/src/cpu/registers.rs:75-107 | writing a pair and then writing back its old value restores the register file |
| ArmProperties.AddStackPointerSigned | core/src/cpu/mod.rs:534-540 | ADD SP, n: SP = SP + the signed byte n, Z and N cleared, only SP, PC and the flags change; 16 cycles |
| ArmProperties.IncThenDecRegister | core/src/cpu/mod.rs:404-422 | INC r then DEC r on the same register restore every register but the flags; 4 cycles each |
| ArmProperties.ComplementTwice | core/src/cpu/mod.rs:502-506 | CPL makes A = 255 − A, sets N and H, changes nothing else; twice gives A back |
| ArmProperties.CarryFlagInstructions | core/src/cpu/mod.rs:673-687 | CCF flips C and SCF sets it; both clear N and H, keep Z and change nothing else; 4 cycles |
| ArmProperties.StopConsumesNullByte | core/src/cpu/mod.rs:698-710 | STOP followed by 0 halts and steps PC over the 0; 4 cycles |
| ArmProperties.StopLeavesOtherByte | core/src/cpu/mod.rs:698-710 | STOP followed by any other byte halts with PC left on that byte; 4 cycles |
| ArmProperties.SwapRegisterTwice | core/src/cpu/mod.rs:807-812 | SWAP r sets Z iff r was 0; applied twice it restores every register but the flags; 8 cycles each |
| ArmProperties.SetOrResetAtHl | core/src/cpu/mod.rs:889-922 | SET/RES b, [HL] make bit b of the byte at HL 1 or 0, keep its other bits and every other byte and register; 16 cycles |
| ArmProperties.TestBitAtHl | core/src/cpu/mod.rs:864-870 | BIT b, [HL] sets Z iff bit b of the byte at HL is 0 and changes only the flags; 12 cycles |
| ArmProperties.AddImmediateThenDecimalAdjust | core/src/cpu/mod.rs:309-314 | ADD A, n then DAA on two BCD bytes leaves their decimal sum in A and the decimal carry in C; only A, F and PC (+1) change; 12 cycles |
| ArmProperties.XorAccumulatorClears | core/src/cpu/mod.rs:474-480 | XOR A clears A, sets Z and clears N, H and C; nothing else changes; 4 cycles |
| CpuCycle.Dispatch | core/src/cpu/mod.rs:64-74 | calling a handler: SP down by 2, the old PC on the stack, PC = the handler's address, IME set to switch off with delay 0, the halted flag kept |
| CpuCycle.ServingStep | core/src/cpu/mod.rs:40-87 | with IME on and a request pending, one step is the dispatch of the lowest pending interrupt plus one IME tick, waking a halted processor; 16 cycles, 20 when halted |
| CpuCycle.InterruptServed | core/src/cpu/mod.rs:40-87 | after serving: PC = the handler, the old PC pushed, not halted, IME off; 16 or 20 cycles |
| CpuCycle.DispatchClearsRequest | core/src/cpu/mod.rs:67 | dispatch clears the served interrupt's IF bit and no other, unless the pushed PC itself lands on IF |
| CpuCycle.ServedRequestIsCleared | core/src/cpu/mod.rs:40-87 | after a serving step the served bit of IF is 0 and the other IF bits are as before (stack not over IF) |
| CpuCycle.HaltedWakesWithoutIme | core/src/cpu/mod.rs:40-84 | halted, IME off, a request pending: PC is stepped by one, the processor wakes, nothing is pushed; 4 cycles |
| CpuCycle.HaltedIdles | core/src/cpu/mod.rs:45-49 | halted and nothing pending: the step only ticks IME; 4 cycles |
| CpuCycle.RunsUnlessServed | core/src/cpu/mod.rs:40-58 | not halted and no interrupt served: the step is fetch-execute plus one IME tick |
| CpuCycle.HaltStep | core/src/cpu/mod.rs:89-103 | fetching HALT moves PC past it and halts; 4 cycles |
| CpuCycle.HaltWakeSkipsNextByte | core/src/cpu/mod.rs:75-78 | HALT with IME off then a request: execution resumes two bytes past the HALT opcode, so the byte after HALT is never executed |
| CpuCycle.EnableInterruptsSchedules | core/src/cpu/mod.rs:718-722 | EI does not turn IME on in its own step; its delay is down to 0 at the end of it |
| CpuCycle.EnableTakesEffectAfterNextInstruction | core/src/cpu/mod.rs:40-58 | the instruction after EI runs with IME off and no interrupt is served before it; at the end of its step IME is on |
| Cpu.Cpu.constructor | core/src/cpu/mod.rs:21-38 | the boot-ROM register values (A 0x01, F Z-H-C, BC 0x0013, DE 0x00D8, HL 0x014D, SP 0xFFFE, PC 0x0100), not halted, IME on |
| Cpu.Cpu.Fetch8 | core/src/cpu/mod.rs:926-930 | the byte and the new machine are `CpuState.Fetch8` of the old |
| Cpu.Cpu.Fetch16 | core/src/cpu/mod.rs:932-936 | the word and the new machine are `CpuState.Fetch16` of the old |
| Cpu.Cpu.StackPush | core/src/cpu/mod.rs:938-941 | the new machine is `CpuState.Push` of the old |
| Cpu.Cpu.StackPop | core/src/cpu/mod.rs:943-947 | the word and the new machine are `CpuState.Pop` of the old |
| Cpu.Cpu.UpdateReg | core/src/cpu/mod.rs:959-963 | the new machine is `CpuState.UpdateRegister` of the old |
| Cpu.Cpu.UpdateRamHl | core/src/cpu/mod.rs:965-969 | the new machine is `CpuState.UpdateAtHl` of the old |
| Cpu.Cpu.LoadRegister | core/src/cpu/mod.rs:109-122 | new machine and cycles are `Execute.LoadRegister` of the old machine |
| Cpu.Cpu.LoadImmediate | core/src/cpu/mod.rs:124-130 | new machine and cycles are `Execute.LoadImmediate` of the old |
| Cpu.Cpu.LoadFromHl | core/src/cpu/mod.rs:132-137 | new machine and cycles are `Execute.LoadFromHl` of the old |
| Cpu.Cpu.StoreToHl | core/src/cpu/mod.rs:139-144 | new machine and cycles are `Execute.StoreToHl` of the old |
| Cpu.Cpu.StoreImmediateToHl | core/src/cpu/mod.rs:146-150 | new machine and cycles are `Execute.StoreImmediateToHl` of the old |
| Cpu.Cpu.LoadAccumulatorStepping | core/src/cpu/mod.rs:218-237 | new machine and cycles are `Execute.LoadAccumulatorStepping` of the old |
| Cpu.Cpu.StoreAccumulatorStepping | core/src/cpu/mod.rs:225-244 | new machine and cycles are `Execute.StoreAccumulatorStepping` of the old |
| Cpu.Cpu.ExecuteLoad8 | core/src/cpu/mod.rs:107-244 | new machine and cycles are `Execute.Load8` of the old |
| Cpu.Cpu.LoadAccumulatorFrom | core/src/cpu/mod.rs:152-195 | new machine and cycles are `Execute.LoadAccumulatorFrom` of the old |
| Cpu.Cpu.StoreAccumulatorTo | core/src/cpu/mod.rs:164-202 | new machine and cycles are `Execute.StoreAccumulatorTo` of the old |
| Cpu.Cpu.LoadAccumulatorDirect | core/src/cpu/mod.rs:176-181 | new machine and cycles are `Execute.LoadAccumulatorDirect` of the old |
| Cpu.Cpu.StoreAccumulatorDirect | core/src/cpu/mod.rs:183-188 | new machine and cycles are `Execute.StoreAccumulatorDirect` of the old |
| Cpu.Cpu.LoadAccumulatorHigh | core/src/cpu/mod.rs:204-209 | new machine and cycles are `Execute.LoadAccumulatorHigh` of the old |
| Cpu.Cpu.StoreAccumulatorHigh | core/src/cpu/mod.rs:211-216 | new machine and cycles are `Execute.StoreAccumulatorHigh` of the old |
| Cpu.Cpu.ExecuteLoadAccumulator | core/src/cpu/mod.rs:152-216 | new machine and cycles are `Execute.LoadAccumulator` of the old |
| Cpu.Cpu.LoadPairImmediate | core/src/cpu/mod.rs:248-254 | new machine and cycles are `Execute.LoadPairImmediate` of the old |
| Cpu.Cpu.StoreStackPointer | core/src/cpu/mod.rs:256-260 | new machine and cycles are `Execute.StoreStackPointer` of the old |
| Cpu.Cpu.LoadHlStackOffset | core/src/cpu/mod.rs:262-269 | new machine and cycles are `Execute.LoadHlStackOffset` of the old |
| Cpu.Cpu.PushPair | core/src/cpu/mod.rs:277-282 | new machine and cycles are `Execute.PushPair` of the old |
| Cpu.Cpu.PopPair | core/src/cpu/mod.rs:284-290 | new machine and cycles are `Execute.PopPair` of the old |
| Cpu.Cpu.ExecuteLoad16 | core/src/cpu/mod.rs:246-290 | new machine and cycles are `Execute.Load16` of the old |
| Cpu.Cpu.ExecuteAlu8 | core/src/cpu/mod.rs:292-494 | new machine and cycles are `Execute.Alu8` of the old |
| Cpu.Cpu.ExecuteUnary8 | core/src/cpu/mod.rs:404-428 | new machine and cycles are `Execute.Unary8` of the old |
| Cpu.Cpu.ExecuteAlu16 | core/src/cpu/mod.rs:508-540 | new machine and cycles are `Execute.Alu16` of the old |
| Cpu.Cpu.ExecuteRotateA | core/src/cpu/mod.rs:542-572 | new machine and cycles are `Execute.RotateA` of the old |
| Cpu.Cpu.JumpAbsolute | core/src/cpu/mod.rs:576-580 | new machine and cycles are `Execute.JumpAbsolute` of the old |
| Cpu.Cpu.JumpConditional | core/src/cpu/mod.rs:588-598 | new machine and cycles are `Execute.JumpConditional` of the old |
| Cpu.Cpu.JumpRelative | core/src/cpu/mod.rs:600-605 | new machine and cycles are `Execute.JumpRelative` of the old |
| Cpu.Cpu.JumpRelativeConditional | core/src/cpu/mod.rs:607-617 | new machine and cycles are `Execute.JumpRelativeConditional` of the old |
| Cpu.Cpu.Call | core/src/cpu/mod.rs:619-625 | new machine and cycles are `Execute.Call` of the old |
| Cpu.Cpu.CallConditional | core/src/cpu/mod.rs:627-638 | new machine and cycles are `Execute.CallConditional` of the old |
| Cpu.Cpu.ExecuteJump | core/src/cpu/mod.rs:574-638 | new machine and cycles are `Execute.Jump` of the old |
| Cpu.Cpu.ExecuteReturn | core/src/cpu/mod.rs:640-669 | new machine and cycles are `Execute.Return` of the old |
| Cpu.Cpu.ExecuteControl | core/src/cpu/mod.rs:671-722 | new machine and cycles are `Execute.Control` of the old |
| Cpu.Cpu.ExecuteCb | core/src/cpu/mod.rs:738-924 | new machine and cycles are `Execute.ExecuteCb` of the old |
| Cpu.Cpu.Execute | core/src/cpu/mod.rs:105-736 | new machine and cycles are `Execute.Execute` of the old |
| Cpu.Cpu.HandleInterrupts | core/src/cpu/mod.rs:60-87 | new machine and cycles are `CpuCycle.HandleInterrupts` of the old |
| Cpu.Cpu.FetchExecute | core/src/cpu/mod.rs:89-103 | new machine and cycles are `CpuCycle.FetchExecute` of the old |
| Cpu.Cpu.Cycle | core/src/cpu/mod.rs:40-58 | new machine and cycles are `CpuCycle.Step` of the old, about which the `CpuCycle` lemmas above are proved |
| Address.Next | core/src/bus.rs:112-116 | `addr + 1` as the 16-bit buses use it: a different address, one higher, 0xFFFF wrapping to 0 |
| MemoryMap.PowerOn | core/src/bus.rs:42-58 | the components of a new bus: the given ROM; video RAM, work RAM, OAM and high RAM all zero; no group selected and no button pressed; the default timer; serial data 0, control 0x7E, nothing latched; IF 0xE1, IE 0; the power-on LCD registers |
| MemoryMap.Advance | core/src/bus.rs:60-65 | `update` without the scanline machine: the timer becomes `Timer.Step` of the old timer, IF gains bit 2 (Timer) exactly when that step overflows and is otherwise kept, the serial port becomes `Serial.Updated` of the old one, and nothing else changes |
| MemoryMap.WramOffset | core/src/bus.rs:72-76 | the work-RAM byte an address selects; echo RAM selects the byte 0x2000 lower |
| MemoryMap.HramOffset | core/src/bus.rs:103 | the high-RAM byte an address selects is inside high RAM |
| MemoryMap.PokeLcd | core/src/bus.rs:146-161 | a write to LY (0xFF44) leaves every register unchanged; any other LCD register takes the written byte and the others keep their values |
| MemoryMap.NextIsAnotherCell | core/src/bus.rs:112-116 | the two bytes of a 16-bit access never name the same storage, echo RAM included |
| MemoryMap.AddressClasses | core/src/bus.rs:67-166 | no address both stores what is written and drops writes |
| MemoryMap.EchoMirrorsWram | core/src/bus.rs:73-76 | reading or writing echo RAM is reading or writing work RAM 0x2000 lower |
| MemoryMap.ReadBack | core/src/bus.rs:67-166 | for every storing address (RAMs, VRAM, OAM, plain registers, IE) a read after a write returns the value written |
| MemoryMap.ReadBackIo | core/src/bus.rs:82-102 | the same read-back for the I/O registers that store their value |
| MemoryMap.WriteIgnored | core/src/bus.rs:120-166 | writes to ROM, external RAM, the prohibited area, audio, unmapped I/O and LY change nothing |
| MemoryMap.JoypadSelect | core/src/joypad.rs:39-71 | a write to 0xFF00 selects a button group and the next read reports that group |
| MemoryMap.FixedReads | core/src/bus.rs:78-108 | the prohibited area reads 0xFF; audio and unmapped I/O read 0 |
| MemoryMap.PokeFrame | core/src/bus.rs:118-166 | a write leaves every address that does not share storage with it unchanged |
| MemoryMap.PeekMemoryFrame | core/src/bus.rs:67-110 | two states that agree on the memory an address reads read it the same |
| MemoryMap.PokeIoFrame | core/src/bus.rs:137-163 | an I/O register write leaves every other address unchanged |
| MemoryMap.PeekIoFrame | core/src/bus.rs:82-104 | an I/O register write leaves every other I/O register unchanged |
| MemoryMap.TimerRegisterFrame | core/src/bus.rs:140-143 | a write to one of DIV, TIMA, TMA, TAC leaves the other three unchanged |
| MemoryMap.Devices.constructor | core/src/bus.rs:42-58 | the components of a new bus, in the `PowerOn` state |
| MemoryMap.Devices.Update | core/src/bus.rs:60-65 | the new state is `Advance` of the old |
| MemoryMap.Devices.Read8 | core/src/bus.rs:67-110 | returns `Peek` of the state: each address range to its device |
| MemoryMap.Devices.ReadIo | core/src/bus.rs:82-104 | returns `PeekIo` of the state for the I/O registers |
| MemoryMap.Devices.Write8 | core/src/bus.rs:118-166 | the new state is `Poke` of the old; VRAM and OAM stay the same objects |
| MemoryMap.Devices.WriteRam | core/src/bus.rs:130-134 | a work- or high-RAM write changes that one byte |
| MemoryMap.Devices.WriteIo | core/src/bus.rs:137-163 | the new state is `PokeIo` of the old |
| MemoryMap.Devices.WriteTimer | core/src/bus.rs:140-143 | the timer's new state is `PokeTimer` of its old state |
| MemoryMap.Devices.WriteGpu | core/src/bus.rs:146-161 | the LCD registers' new values are `PokeLcd` of the old |
| Bus.ReadWord | core/src/bus.rs:112-116 | `read16`: low byte at addr, high byte at addr + 1 (wrapping) |
| Bus.ReadIsDecoded | core/src/bus.rs:67-110 | every address but 0xFF46 reads through the shared decoder |
| Bus.DmaWrite | core/src/bus.rs:152-156 | a write to 0xFF46 latches the source page (read back there), arms a transfer with a zeroed clock and changes no other address |
| Bus.BusReadBack | core/src/bus.rs:67-166 | a read after a write to a storing address returns the value written |
| Bus.BusFrame | core/src/bus.rs:118-166 | a write leaves every address that does not share storage with it unchanged |
| Bus.Read16AfterWrite16 | core/src/bus.rs:168-172 | `read16` after `write16` at a storing pair returns the word |
| Bus.DmaAddress | core/src/bus.rs:185-186 | the transfer's n-th source address is page × 0x100 + n |
| Bus.TransferredOam | core/src/bus.rs:185-192 | the 160 bytes copied: byte i of OAM is the byte read at page × 0x100 + i |
| Bus.TransferCopiesPage | core/src/bus.rs:174-192 | once the clock reaches 640 the page is in OAM and the transfer is no longer pending |
| Bus.TransferWaits | core/src/bus.rs:174-183 | before 640 cycles nothing is copied and the clock only advances |
| Bus.IdleTransferIsStable | core/src/bus.rs:174-176 | with no transfer pending the tick changes nothing |
| Bus.DmaCopiesAfterPeriod | core/src/bus.rs:152-192 | writing page p to 0xFF46 and waiting 640 cycles copies page p into OAM |
| Bus.OamTransferTick | core/src/bus.rs:174-183 | with no transfer pending nothing changes; a pending transfer below 640 cycles only advances its clock; once due, the clock advances, the transfer is no longer pending, the source is kept and only OAM changes (to the copied page, by `TransferCopiesPage`) |
| Bus.Tick | core/src/bus.rs:60-65 | `update`: apart from OAM the components become `Advance` of the old ones (timer, IF, serial); OAM changes only when a transfer falls due, and then holds `TransferredOam` of the advanced components; that also ends the pending transfer; a pending transfer's clock advances by the cycles; the source page is kept |
| Bus.ReadDuringTransfer | core/src/bus.rs:185-192 | the copy's reads are not disturbed by the OAM bytes it has already written |
| Bus.CopyStep | core/src/bus.rs:187-190 | one more copied byte extends the partly transferred state by one |
| Bus.MemoryBus.constructor | core/src/bus.rs:42-58 | a new bus: power-on components, DMA register 0, no transfer pending, clock 0 |
| Bus.MemoryBus.Read8 | core/src/bus.rs:67-110 | returns `Read` of the state |
| Bus.MemoryBus.Read16 | core/src/bus.rs:112-116 | returns `ReadWord` of the state |
| Bus.MemoryBus.Write8 | core/src/bus.rs:118-166 | the new state is `Write` of the old |
| Bus.MemoryBus.Write16 | core/src/bus.rs:168-172 | the new state is `WriteWord` of the old |
| Bus.MemoryBus.Update | core/src/bus.rs:60-65 | the new state is `Tick` of the old |
| Bus.MemoryBus.UpdateOamTransfer | core/src/bus.rs:174-183 | the new state is `OamTransferTick` of the old |
| Bus.MemoryBus.PerformOamTransfer | core/src/bus.rs:185-192 | OAM becomes `TransferredOam` of the old state, by a loop whose invariant is the partly transferred state |
| Bus.MemoryBus.CopyOamByte | core/src/bus.rs:188-190 | one iteration of the copy loop |
| Memory.ReadWord | core/src/memory.rs:98-102 | `read16`: low byte at addr, high byte at addr + 1 (wrapping) |
| Memory.DmaRegisterInert | core/src/memory.rs:138-140 | in this model 0xFF46 reads 0 and a write to it changes nothing |
| Memory.AgreesWithBus | core/src/memory.rs:53-150 | away from 0xFF46 the memory model reads and writes exactly as the bus does |
| Memory.ReadWordAfterWriteWord | core/src/memory.rs:152-156 | `read16` after `write16` at a storing pair returns the word |
| Memory.Memory.constructor | core/src/memory.rs:34-45 | power-on components |
| Memory.Memory.Update | core/src/memory.rs:47-51 | the new state is `Advance` of the old |
| Memory.Memory.Read8 | core/src/memory.rs:53-96 | returns `Read` of the state |
| Memory.Memory.Read16 | core/src/memory.rs:98-102 | returns `ReadWord` of the state |
| Memory.Memory.Write8 | core/src/memory.rs:104-150 | the new state is `Write` of the old |
| Memory.Memory.Write16 | core/src/memory.rs:152-156 | the new state is `WriteWord` of the old |
| Timer.Enabled | core/src/timer.rs:37-39 | the timer runs exactly when bit 2 of the control register is set |
| Timer.Period | core/src/timer.rs:27-28 | the period is CLOCK_SPEED / frequency rounded down: the largest count whose multiple of the frequency does not exceed the clock speed |
| Timer.Frequency | core/src/timer.rs:41-49 | the two low control bits select 4096, 262144, 65536 or 16384 Hz |
| Timer.DividerStep | core/src/timer.rs:17-22 | the divider advances by one exactly when the accumulated cycles reach 256, which are then reduced by 256; nothing but the divider and its cycle count changes |
| Timer.CounterStep | core/src/timer.rs:24-58 | a disabled timer changes nothing; an enabled one whose accumulated cycles stay below the period only accumulates; once they reach it they lose one period and the counter grows by one, or at 0xFF reloads from the modulo, and the interrupt is raised exactly in that reload case |
| Timer.Step | core/src/timer.rs:16-35 | the whole `update`: the divider and its accumulator as in `DividerStep`, then the counter and its accumulator as in `CounterStep`, the interrupt raised exactly on a reload; modulo and control are kept |
| Timer.DividerKeepsUp | core/src/timer.rs:17-22 | starting from fewer than 256 pending cycles, an update of at most 256 cycles leaves fewer than 256 pending |
| Timer.OverflowReloads | core/src/timer.rs:24-54 | an enabled timer at 0xFF whose period elapses reloads the modulo and requests the timer interrupt |
| Timer.DividerExample | core/src/timer.rs:66-83 | updates of 256, 300 and 230 cycles take the divider to 1, 2 and 3, and from 255 it wraps to 0 |
| Timer.Timer.constructor | core/src/timer.rs:5-13 | a default timer is all zero |
| Timer.Timer.Update | core/src/timer.rs:16-35 | the new timer state is `Step` of the old one, and the interrupt flag gains the timer bit exactly when `Step` reports an overflow |
| Timer.Timer.UpdateDivider | core/src/timer.rs:17-22 | the divider part of the update, stated as `DividerStep` |
| Timer.Timer.UpdateCounter | core/src/timer.rs:24-34 | the counter part of the update, stated as `CounterStep`, with the timer flag set exactly on overflow |
| Timer.Timer.IncreaseTimer | core/src/timer.rs:51-58 | at 0xFF the counter reloads from the modulo and the timer interrupt is flagged; otherwise the counter grows by one and no flag changes |
| Joypad.Button.Index | core/src/joypad.rs:5-15 | every button's index is inside the eight-entry button array |
| Joypad.Selection | core/src/joypad.rs:63-71 | bit 5 selects the action buttons, else bit 4 the direction buttons, else none, in each direction of the iff |
| Joypad.WriteButtonsBits | core/src/joypad.rs:56-58 | after the loop, bit j below the group size holds the state of the j-th button of the group and every other bit is the header's |
| Joypad.ActionByte | core/src/joypad.rs:43-60 | with action buttons selected the byte has bit 5 set, bits 4, 6, 7 clear and bits 0..3 holding A, B, Select, Start |
| Joypad.DirectionByte | core/src/joypad.rs:48-60 | with direction buttons selected the byte has bit 4 set, bits 5, 6, 7 clear and bits 0..3 holding Right, Left, Up, Down |
| Joypad.UnselectedGroupIgnored | core/src/joypad.rs:39-61 | the byte depends only on the buttons of the selected group: changing the others leaves it unchanged |
| Joypad.Joypad.constructor | core/src/joypad.rs:32-37 | a new joypad has all eight buttons released and nothing selected |
| Joypad.Joypad.GetByte | core/src/joypad.rs:39-61 | the loop computes `JoypadByte` of the selection and the current buttons, and the byte is 0 when nothing is selected |
| Joypad.Joypad.SetByte | core/src/joypad.rs:63-71 | the selection becomes `Selection` of the written byte; the buttons are unchanged |
| Joypad.Joypad.SetButton | core/src/joypad.rs:78-80 | exactly the button's entry of the array takes the new value: `get_button` then returns it, and every other button reads as before |
| Serial.Updated | core/src/serial.rs:16-22 | control 0x81 becomes 0x01 and the data byte is latched for output; any other control leaves the port unchanged |
| Serial.UpdateIdempotent | core/src/serial.rs:16-22 | a second update right after the first changes nothing |
| Serial.NoTransferNoByte | core/src/serial.rs:16-22 | when no transfer is requested and no byte is pending, an update leaves no byte pending |
| Serial.SerialTransfer.constructor | core/src/serial.rs:8-14 | a new port has data 0, control 0x7E and no byte |
| Serial.SerialTransfer.Update | core/src/serial.rs:16-22 | the new state is `Updated` of the old one |
| Serial.SerialTransfer.TakeByte | core/src/serial.rs:24-26 | returns the pending byte and leaves none behind |
| Serial.TakeTwice | core/src/serial.rs:24-26 | taking twice yields the pending byte and then None |
| Tiles.PixelIdBits | core/src/gpu/tiles.rs:16-22 | a colour id is below 4, its high bit is the bottom byte's bit and its low bit the top byte's bit, read from the left (bit 7 - px) |
| Tiles.RowIds | core/src/gpu/tiles.rs:16-22 | one row of a tile has eight colour ids |
| Tiles.TileIds | core/src/gpu/tiles.rs:14-25 | the decoded ids are four per input byte: eight per two-byte row |
| Tiles.RowIdsAt | core/src/gpu/tiles.rs:16-22 | the id at column px of a row is the pixel id of that column |
| Tiles.TileIdsUnfold | core/src/gpu/tiles.rs:14-15 | the first eight ids come from the first byte pair and the rest from the remaining pairs |
| Tiles.TileIdsRow | core/src/gpu/tiles.rs:14-22 | the id at row r, column px is the px-th id of the row decoded from byte pair r |
| Tiles.TileIdsAt | core/src/gpu/tiles.rs:14-22 | the id at row r, column px combines bit 7 - px of bytes 2r+1 (high) and 2r (low), and is below 4 |
| Tiles.RowExamplesTop | core/src/gpu/tiles.rs:37-45 | the first rows of the source's test tile decode as its expected rows |
| Tiles.RowExamplesBottom | core/src/gpu/tiles.rs:37-49 | the remaining distinct rows of the test tile decode as expected |
| Tiles.EightRows | core/src/gpu/tiles.rs:14-25 | a 16-byte tile decodes to the concatenation of its eight rows |
| Tiles.TileExample | core/src/gpu/tiles.rs:35-54 | the source's whole test tile decodes to its 64 expected ids |
| Tiles.TileIdsAppend | core/src/gpu/tiles.rs:14-25 | appending a byte pair appends that pair's row to the decoded ids |
| Tiles.Tile.FromVramData | core/src/gpu/tiles.rs:11-28 | the nested loops fill the 64-entry array with exactly `TileIds` of the 16 bytes |
| Tiles.ColumnIsMirroredPixel | core/src/gpu/tiles.rs:17-21 | the id the loop computes for bit `col` is the pixel id of column 7 - col, where it is stored |
| Tiles.RowWritten | core/src/gpu/tiles.rs:16-23 | once the eight entries of a row hold that row's ids, the prefix up to and including the row is the earlier prefix followed by `RowIds` |
| Tiles.DecodeRow | core/src/gpu/tiles.rs:16-23 | the inner loop appends the row's ids after the rows already decoded |
| Palettes.Shade | core/src/gpu/palettes.rs:8-23 | a two-bit index converts to the non-transparent shade with that position in the enum |
| Palettes.BackgroundPalette.ColourForId | core/src/gpu/palettes.rs:20-24 | id n is mapped to the shade whose index is bits 2n..2n+1 of the palette byte, never transparent |
| Palettes.ObjectPalette.ColourForId | core/src/gpu/palettes.rs:30-38 | id 0 is transparent; every other id is mapped as by the background palette |
| Palettes.IdentityPalette | core/src/gpu/palettes.rs:20-24 | the palette byte 0xE4 maps each id to the shade with the same index |
| Oam.OamOffset | core/src/gpu/oam.rs:3-27 | an address in 0xFE00..0xFE9F maps to an offset inside the 160-byte table |
| Oam.SpriteAt | core/src/gpu/oam.rs:30-43 | sprite i reads y, x and tile index from bytes 4i..4i+2 and its four flags from bits 7, 6, 5, 4 of byte 4i+3 |
| Oam.SpriteUnaffectedByOtherWrites | core/src/gpu/oam.rs:25-43 | writing a byte that belongs to another sprite leaves sprite i unchanged |
| Oam.SpriteAttributeTable.constructor | core/src/gpu/oam.rs:14-18 | a new table is 160 zero bytes |
| Oam.SpriteAttributeTable.Write8 | core/src/gpu/oam.rs:25-28 | exactly the addressed byte changes, and reading it back gives the value |
| Vram.VramOffset | core/src/gpu/vram.rs:1-22 | an address in 0x8000..0x9FFF maps to an offset inside the 8 KiB array |
| Vram.VideoRam.constructor | core/src/gpu/vram.rs:10-14 | new video RAM is 8 KiB of zeros |
| Vram.VideoRam.Write8 | core/src/gpu/vram.rs:20-22 | exactly the addressed byte changes, and reading it back gives the value |
| Gpu.RegisterIndex | core/src/bus.rs:91-102 | the eleven LCD registers sit at 0xFF40..0xFF4B with 0xFF46 (DMA) taken out |
| Gpu.Gpu.Registers | core/src/gpu/mod.rs:3-16 | the register list has eleven entries and `RegisterIndex` finds LCDC, LY and WX in it |
| Gpu.Gpu.constructor | core/src/gpu/mod.rs:19-34 | the power-on register values: LCDC 0x91, STAT 0x81, LY 0x91, BGP 0xFC, all else zero; the video RAM and sprite table are the zeroed `VideoRam::new` and `SpriteAttributeTable::new` of `gpu/vram.rs:10-14` and `gpu/oam.rs:14-18`, held as the bus uses them |
| Screen.IndexInjective | core/src/screen.rs:24-36 | inside the 160×144 screen, distinct coordinates give distinct buffer indices, all inside the buffer |
| Screen.RowMajorInjective | core/src/screen.rs:34-36 | the row-major index is a bijection on the screen's coordinates |
| Screen.RowMajorBelow | core/src/screen.rs:34-36 | rows before `limit` occupy indices below `limit · 160` |
| Screen.IndexWrapsIntoNextRow | core/src/screen.rs:34-36 | `index` does not check x: column x + 160 of row y is column x of row y + 1 |
| Screen.Screen.constructor | core/src/screen.rs:18-22 | a new screen is all dark |
| Screen.Screen.Set | core/src/screen.rs:28-30 | exactly the pixel at `index(x, y)` changes, and `get` then returns it |
| Cartridge.TakeUntilZero | core/src/cartridge.rs:24-27 | the longest prefix without a zero byte: it is a prefix, holds no zero, and stops at a zero or the end |
| Cartridge.Pow2Add | core/src/cartridge.rs:75 | powers of two multiply by adding exponents |
| Cartridge.Cartridge.GameTitle | core/src/cartridge.rs:23-28 | the title is the bytes from 0x134 up to the first zero, at most 16 of them |
| Cartridge.Cartridge.CartType | core/src/cartridge.rs:30-72 | 0x00 is ROM-only, 0x01..0x03 MBC1 with RAM unless 0x01 and a battery only for 0x03, 0x0F..0x13 MBC3 with a timer for 0x0F and 0x10, RAM for 0x10, 0x12, 0x13 and a battery for 0x0F, 0x10, 0x13, any other byte unsupported with that code |
| Cartridge.Cartridge.RomSize | core/src/cartridge.rs:74-76 | 32 KiB shifted left by the header byte at 0x148 |
| Cartridge.Cartridge.RamSize | core/src/cartridge.rs:78-86 | header byte 2, 3, 4, 5 gives 8, 32, 128, 64 KiB, any other 0 |
| Cartridge.RomSizeDoubles | core/src/cartridge.rs:74-76 | each step of the ROM-size byte doubles the ROM size |
| Mbc.ControllerFor | core/src/mbc/mod.rs:6-17 | ROM-only gets the ROM-only controller, MBC1 an MBC1 controller with its RAM and battery settings, an unsupported type none |
| Mbc.FromCartridge | core/src/mbc/mod.rs:6-17 | a ROM-only cartridge yields a fresh ROM-only controller holding the image, an unsupported one yields None |
| RomOnly.RomOnly.constructor | core/src/mbc/rom_only.rs:5-12 | the loop copies the image into the first bytes of a zeroed 32 KiB ROM |
| RomOnly.RomOnly.Write8 | core/src/mbc/rom_only.rs:20-22 | a write leaves the controller and its ROM array unchanged |
| RomOnly.PaddingReadsZero | core/src/mbc/rom_only.rs:5-12 | ROM bytes past the image read as zero |

## Left out

- Front-ends, `core/src/lib.rs` (the step loop and trace output) and `core/src/display.rs`: windowing, event loops and text output. `lib.rs` is not part of this model.
- The scanline machine of the video unit. `bus.rs:61` calls `gpu.update`, but no such method exists in the core files. The bus update here advances the timer and the serial port and ticks the DMA transfer; LY keeps its power-on value.
- Audio registers: the source stubs them (reads 0, writes dropped), and the model does the same.
- MBC1 and MBC3: every MBC1 body and the MBC3 arm of `from_cartridge` are `unimplemented!()`. `Mbc.FromCartridge` takes only ROM-only and unsupported cartridges, and the buses hold a ROM-only controller.
- `Cartridge::from_file` (file I/O), the `Display` impls and all `log::` and `println!` calls. The trace message in `MemoryBus::write8` reads the bus only when trace logging is enabled; the model follows the path with tracing off.
- `core/src/cycles.rs`: its `MCycles` and `TCycles` newtypes become `nat` cycle counts. The M-to-T conversion (×4, `cycles.rs:13-16`) is used only at `memory.rs:48` to feed `gpu.update`, which is not modelled, so no ×4 appears in the model.
- `CLOCK_SPEED` is defined outside the core files, so the timer takes it as a parameter `clockSpeed`.
- Reads of external RAM (0xA000..0xBFFF) go to the ROM-only controller's 32 KiB array and panic in the source. The bus read functions therefore require an address outside that window (`Bus.BusReadable`), and the DMA transfer requires a source page outside it.
- The processor runs against `CpuBus.FlatBus`, a flat 64 KiB memory with IF and IE routed to the interrupt controller, not against the full `MemoryBus`. The decoding of the real bus is proved separately in `MemoryMap` and `Bus`.
- Registers.Put16 and `Registers.Registers.Set16` keep a quirk of `set16`: index 4 is accepted and ignored, because the source's match arm for the fourth pair is labelled 4 rather than 3. Index 3 panics in the source and is excluded by a precondition.
- Inputs that panic or fail a debug assertion in the source are preconditions, not error results. These are: an 8-bit register index above 7, a pair index above 3, `colour_for_id` with an id of 4 or more, a sprite index of 40 or more, an address outside OAM or VRAM, a ROM image over 32 KiB, a ROM-size byte of 49 or more, a screen pixel whose index (`screen.rs:28-30`, wrapping x into the next row) reaches 23040 in `Screen.Screen.Get` and `Screen.Screen.Set`, an address at or past the image's end in `Cartridge.Cartridge.Read8` (`cartridge.rs:20`), and an image too short to hold the header byte read by `Cartridge.Cartridge.GameTitle`, `CartType`, `RomSize`, `RamSize` and `SoldInJapan` (`cartridge.rs:24`, `31`, `75`, `79`, `89`). `game_title` collects the bytes as `char`s into a `String`; `GameTitle` returns the same bytes as a byte sequence.
- Execute: the arm functions (`Execute.Load8`, `Execute.Alu8`, `Execute.Unary8`, `Execute.Jump` and the others) state in their own contracts only that the bus stays 64 KiB and which of IME and the halted flag they keep. What each arm does is stated by the `ArmProperties` and `ExecuteProperties` lemmas.
- Execute: no dedicated lemma covers ADC, SBC, AND and OR on registers, INC/DEC [HL], or the rotate, shift and RES/SET arms of the 0xCB table on registers. Their outcomes are still fixed by `Execute`, and the `Cpu.Cpu` methods are proved against it, but nothing further is proved about them.
- CpuState.Fetch8, CpuState.Fetch16, CpuState.Push, CpuState.Pop, CpuCycle.Step, CpuCycle.HandleInterrupts and CpuCycle.FetchExecute are specification functions: their contracts state only that the bus stays 64 KiB. Their meaning is given by the `CpuState` and `CpuCycle` lemmas in the table.
- Bus.Read, Bus.Write, Bus.WriteWord, Memory.Read, Memory.Write, Memory.WriteWord, MemoryMap.Peek, MemoryMap.Poke, MemoryMap.PeekIo, MemoryMap.PokeIo, MemoryMap.PeekTimer and MemoryMap.PokeTimer are the address decoders of `bus.rs:67-172` and `memory.rs:53-156`, written as specification functions; their contracts state at most that the state stays well sized. What they do is stated by `MemoryMap.ReadBack`, `ReadBackIo`, `WriteIgnored`, `FixedReads`, `EchoMirrorsWram`, `JoypadSelect`, the `MemoryMap` frame lemmas, `Bus.BusReadBack`, `Bus.BusFrame`, `Bus.DmaWrite`, `Bus.Read16AfterWrite16`, `Memory.AgreesWithBus` and `Memory.ReadWordAfterWriteWord`.
- Interrupts.NextTriggered and Interrupts.Interrupts.IsFlagged have no contract of their own: `Interrupts.NextTriggeredIsLowestPending` states what `next_triggered_interrupt` returns, and the contract of `Interrupts.Interrupts.Flag` states what `is_flagged` returns after a write.
- Joypad.JoypadByte, Joypad.WriteButtons and Joypad.Joypad.GetButton have no contract of their own: `Joypad.ActionByte`, `Joypad.DirectionByte`, `Joypad.UnselectedGroupIgnored` and `Joypad.WriteButtonsBits` state the byte `get_byte` builds, and `Joypad.Joypad.SetButton` states what `get_button` returns after a write.
- Tiles.PixelId and Oam.SpriteAttributeTable.ReadSprite have no contract of their own: `Tiles.PixelIdBits` states the colour id's two bits, and `Oam.SpriteAt`, which `ReadSprite` returns on the table's bytes, states the decoded sprite.
- Ime.InterruptMasterEnable.Enabled and the flag getters Registers.Flags.Carry, Registers.Flags.HalfCarry, Registers.Flags.Subtraction and Registers.Flags.Zero are single field or bit reads with no contract of their own. `Ime.EnableTakesEffectAfterDelay`, `Ime.DisableTakesEffectAfterDelay` and `Ime.ImeExamples` state what `enabled()` returns over time; `Registers.FlagsLayout` states which bit each getter reads (C bit 4, H bit 5, N bit 6, Z bit 7), and the setter contracts state that each setter changes only its own flag.
- Execute.AluOperation, Execute.RotateAOperation, Execute.ShiftOperation and CpuState.Apply are the sub-tables of the `match` in `cpu/mod.rs` that pick an ALU function by opcode bits; they have no contract of their own. The `Alu` contracts state each function they select, and the `ExecuteProperties` and `ArmProperties` lemmas (`CompareIsSubtractionKeepingA`, `RotateAccumulatorClearsZero`, `SwapRegisterTwice`, `IncThenDecRegister`) state the dispatched outcomes.
- The core files come from different snapshots that do not compile together; the model makes one choice for each mismatch:
  - `bus.rs` reads `gpu.vram.read8`, `gpu.oam`, the `.0` byte of newtype registers and `window_x_plus_7`, while `gpu/mod.rs` has a raw VRAM array, no OAM and plain `u8` registers with `window_x`. The model's `Gpu` follows the bus: it holds a `VideoRam` and a `SpriteAttributeTable`, stores each register as a byte, and takes its power-on values from `gpu/mod.rs:19-34`.
  - `timer.rs:54` calls `flag_interrupt`, but `interrupts.rs:23` defines `flag`; the timer calls `Interrupts.Interrupts.Flag`.
  - `alu.rs` and `alu/mod.rs` hold the same code; one `Alu` module models both.
  - `memory.rs:49` passes `MCycles` to `timer.update`, whose parameter is a `usize` (`timer.rs:16`), and `bus.rs:60-62` passes one `Cycles` count to both; the model passes one `nat` cycle count to `Timer.Step`.
  - `mbc/mod.rs:8-9` passes the whole cartridge (and for MBC1 the RAM and battery flags) to constructors that take only the byte image (`rom_only.rs:6`, `mbc1.rs:9`); `Mbc.FromCartridge` passes the cartridge's bytes to `RomOnly.RomOnly`, and `Mbc.ControllerFor` records the flags that would be forwarded to MBC1.
- Cartridge.Cartridge.Read8, Cartridge.Cartridge.SoldInJapan, RomOnly.RomOnly.Read8, Oam.SpriteAttributeTable.Read8, Vram.VideoRam.Read8 and Screen.Screen.Get are single index or comparison expressions with no contract of their own. The write methods next to them state what those reads return.
- Screen.Index: like the source's `index`, it does not check x < 160, so column 160 + x of row y is column x of row y + 1 (`Screen.IndexWrapsIntoNextRow`).
