# A verified model of the chip8emu interpreter core

This project models the core of chip8emu, a CHIP-8 interpreter written in
Rust. The model covers five parts:

- the opcode decoder (`Instruction::from_opcode`);
- the processor (`CPU`): its registers, the register guards, `step` and every
  arm of `execute`;
- the 4096-byte memory with its built-in hexadecimal font;
- the 64x32 XOR-drawing display;
- the machine (`Chip8`) that owns a processor and a memory and loads a
  program image at `PROGRAM_START` (0x200).

Each part that the source updates in place is a Dafny class. Its methods
change arrays and fields. Each method is proved against a pure function on
values: `Memory.Read`/`Write`, `Display.DrawOnto`, `Cpu.Exec`,
`Cpu.StepOutcome` and `Chip8.Load`. The properties are then proved about
those functions as lemmas.

A Rust panic becomes an `Err` that names the reason (`Words.Fault`). The
reasons are:

- an index out of range;
- a register guard;
- a `u8` or `u16` overflow in a debug build;
- a stack under- or overflow;
- `todo!`/`unimplemented!`.

The model follows the code as written, and in several places the code departs
from the usual CHIP-8 definition:

- `read_register` and `write_register` reject every register from 15 up, VF
  included. So every arm that sets VF always panics: `ADD Vx, Vy`, `SUB`,
  `SUBN`, `SHR`, `SHL`.
- `step` composes the opcode as `(high << 8) & low`, which is always 0. Zero
  decodes to `SYS 0`, which is unimplemented, so every step panics. `step`
  also never advances `pc` and never ticks the timers.
- `SE Vx, byte`, `SNE Vx, byte` and `SE Vx, Vy` compare register numbers, not
  register contents. So do the VF bit of `SHR`/`SHL` and the digits `LD B, Vx`
  stores. Only `SNE Vx, Vy` reads the registers.
- `CALL` pre-increments `sp` and refuses at 15, so stack slot 0 is never used
  and calls nest at most 15 deep.
- Family 9 decodes to `SNE Vx, Vy` whatever its low nibble is, as family 5
  does.
- `draw` panics when a start coordinate plus an offset overflows a `u8`.
  Otherwise it wraps coordinates modulo 64 and 32.

## Model

| member | source | states |
|---|---|---|
| Words.CheckedAdd8 | src/cpu.rs:80 | `u8` addition succeeds exactly when the sum is below 256; otherwise it is the overflow panic |
| Words.CheckedAdd16 | src/cpu.rs:138 | `u16` addition succeeds exactly when the sum is below 65536; otherwise it is the overflow panic |
| Words.OverflowingAdd8 | src/cpu.rs:100 | `overflowing_add`: the wrapped sum plus 256 when the flag is set equals the true sum |
| Words.OverflowingSub8 | src/cpu.rs:105 | `overflowing_sub`: the wrapped difference minus 256 when the flag is set equals the true difference |
| Words.ShiftRight | src/instruction.rs:43-47 | `a >> k` on an unsigned value as `k` halvings (a definition; `ShiftRightIsDiv` ties it to division) |
| Words.ShiftRightIsDiv | src/instruction.rs:43-47 | shifting right by `k` is dividing by `2^k` |
| Words.And | src/instruction.rs:43-48 | bitwise AND on unsigned values: the result is at most each operand |
| Words.AndBit | src/cpu.rs:92 | bit `k` of the AND is set exactly when bit `k` is set in both operands |
| Words.Or | src/cpu.rs:88 | bitwise OR on unsigned values: the result is at least each operand |
| Words.OrBit | src/cpu.rs:88 | bit `k` of the OR is set exactly when bit `k` is set in either operand |
| Words.Xor | src/cpu.rs:96 | bitwise XOR on unsigned values: the result is at most the sum of the operands |
| Words.XorBit | src/cpu.rs:96 | bit `k` of the XOR is set exactly when bit `k` is set in one operand and not the other |
| Words.Or8 | src/cpu.rs:88 | bitwise OR on bytes: the result is a byte at least as large as each operand |
| Words.And8 | src/cpu.rs:92 | bitwise AND on bytes: the result is at most each operand |
| Words.Xor8 | src/cpu.rs:96 | bitwise XOR on bytes: the result is a byte no larger than the sum of the operands |
| Instructions.FirstNibble | src/instruction.rs:43 | the family is a nibble (below 16) |
| Instructions.RegX | src/instruction.rs:46 | the `x` register operand is below 16 |
| Instructions.RegY | src/instruction.rs:47 | the `y` register operand is below 16 |
| Instructions.LastNibble | src/instruction.rs:44 | the low nibble is below 16 |
| Instructions.LowByte | src/instruction.rs:48 | the immediate byte, `op mod 256` (a definition; `LowFieldsAreMasks` proves it equals `opcode & 0x00FF`) |
| Instructions.Address | src/instruction.rs:45 | the address operand has 12 bits |
| Instructions.NibbleFieldsAreMasks | src/instruction.rs:43-47 | the family, `x` and `y` fields equal the source's mask-and-shift expressions |
| Instructions.LowFieldsAreMasks | src/instruction.rs:44-48 | the low nibble, address and byte fields equal the source's masks |
| Instructions.FieldsCompose | src/instruction.rs:43-48 | the address is `x`,`y`,`n` and the byte is `y`,`n`; the four nibbles rebuild the opcode |
| Instructions.FromOpcode | src/instruction.rs:42-99 | `from_opcode`: only families 8, E and F can fail to decode; every other family yields an instruction |
| Instructions.DecodedOperandsInRange | src/instruction.rs:42-99 | every decoded operand is in range: registers and nibbles below 16, addresses below 0x1000 |
| Instructions.Family0 | src/instruction.rs:51-55 | family 0 always decodes: low byte E0 is CLS, EE is RET whatever `x` holds, and anything else is SYS with the address |
| Instructions.Family8 | src/instruction.rs:63-74 | family 8 decodes exactly for low nibbles 0-7 and E; SHR and SHL keep only `x` |
| Instructions.Families5And9AndD | src/instruction.rs:60-79 | families 5 and 9 ignore the low nibble; DRW takes the low nibble as its height |
| Instructions.DecodeNoneIff | src/instruction.rs:50-98 | decoding fails exactly in families 8, E and F with an unknown selector; the final `_` arm cannot be reached |
| Instructions.DecodeExample1 | src/instruction.rs:56 | 0x1234 decodes to JP 0x234 |
| Instructions.DecodeExample2 | src/instruction.rs:52 | 0x00E0 decodes to CLS |
| Instructions.DecodeExample3 | src/instruction.rs:52 | 0x01E0 also decodes to CLS |
| Instructions.DecodeExample4 | src/instruction.rs:53 | 0x00EE decodes to RET |
| Instructions.DecodeExample5 | src/instruction.rs:54 | 0x0000 decodes to SYS 0 |
| Instructions.DecodeExample6 | src/instruction.rs:60 | 0x5AB7 decodes to SE VA, VB |
| Instructions.DecodeExample7 | src/instruction.rs:70 | 0x8AB6 decodes to SHR VA |
| Instructions.DecodeExample8 | src/instruction.rs:73 | 0x8AB8 decodes to nothing |
| Instructions.DecodeExample9 | src/instruction.rs:79 | 0xD123 decodes to DRW V1, V2, 3 |
| Instructions.DecodeExample10 | src/instruction.rs:83 | 0xE1A2 decodes to nothing |
| Instructions.DecodeExample11 | src/instruction.rs:94 | 0xF265 decodes to LD V2, [I] |
| Instructions.DecodeEncode | src/instruction.rs:3-99 | decoding an instruction's canonical opcode gives the instruction back, except a SYS whose address ends in E0 or EE |
| Instructions.EncodeDecode | src/instruction.rs:42-99 | the decoder reads every opcode bit except those it ignores: re-encoding a decoded opcode gives it back with the ignored bits cleared |
| Memory.Initial | src/memory.rs:7-34 | the initial memory image has 4096 bytes |
| Memory.InitialLayout | src/memory.rs:8-31 | a fresh memory holds the 80-byte font at 0x000-0x04F and zero everywhere else |
| Memory.Read | src/memory.rs:36-38 | `read_byte` succeeds exactly below 4096 and returns that byte; otherwise it is the index panic |
| Memory.Write | src/memory.rs:40-42 | `write_byte` succeeds exactly below 4096; only that byte changes, to `data` |
| Memory.ReadAfterWrite | src/memory.rs:36-42 | reading a written address gives the data; any other address reads as before |
| Memory.FontSpriteAddr | src/memory.rs:44-46 | the glyph address is five times the digit; its five bytes lie inside the font exactly for digits 0-F |
| Memory.GlyphInInitialMemory | src/memory.rs:11-31 | in a fresh memory, the five bytes at a digit's glyph address are that digit's row of the font table |
| Memory.GlyphA | src/memory.rs:23 | glyph A starts at 50 and reads F0 90 F0 90 90 |
| Memory.Memory.constructor | src/memory.rs:7-34 | `Memory::new` zeroes the array, then writes the font byte by byte, giving the initial image |
| Memory.Memory.ReadByte | src/memory.rs:36-38 | the method returns `Read` of the contents |
| Memory.Memory.WriteByte | src/memory.rs:40-42 | the new contents are `Write` of the old; a panic stores nothing |
| Display.Blank | src/display.rs:9-19 | a blank screen has 2048 pixels, all off |
| Display.GetIndex | src/display.rs:32-38 | the index lies in the 2048-pixel vector at column `x mod 64`, row `y mod 32` |
| Display.SpriteBit | src/display.rs:66-72 | column `j` of a sprite row is bit `7 - j` of the byte, most significant first (a definition; `ByteBit` ties the source's mask-and-shift test to it) |
| Display.ByteBit | src/display.rs:69 | the source's test `(byte & (0x80 >> i)) >> (7 - i) == 1` is bit `7 - i` of the byte |
| Display.ByteBitsExample | src/display.rs:78-84 | 0b10110110 unpacks to on, off, on, on, off, on, on, off |
| Display.ByteAsBoolArray | src/display.rs:66-72 | the eight entries are the byte's bits, most significant first |
| Display.Flip | src/display.rs:49-54 | one step XORs a pixel with a bit, changes no other pixel, and sets the collision flag when a lit pixel is hit by a set bit |
| Display.Fits | src/display.rs:45-48 | the no-overflow condition of `draw`: a non-empty sprite needs `start_x + 7` and `start_y` plus its last truncated row number to fit in a `u8` (`DrawOnto` succeeds exactly when it holds) |
| Display.Target | src/display.rs:45-49 | the pixel that column `j` of row `i` lands on, `get_index(start_x + j, start_y + i as u8)`, lies inside the 2048-pixel vector |
| Display.RowPrefix | src/display.rs:47-55 | the screen and flag after the first `j` columns of one sprite row; the screen keeps its 2048 pixels |
| Display.Partial | src/display.rs:43-56 | the screen and flag once the loops have reached row `i`, column `j`; the screen keeps its 2048 pixels |
| Display.DrawOnto | src/display.rs:40-63 | drawing succeeds exactly when no coordinate addition overflows a `u8`; VF is then 0 or 1 |
| Display.PartialIsXor | src/display.rs:43-56 | drawing XORs the screen with the picture the same sprite leaves on a blank screen |
| Display.DrawTwiceRestores | src/display.rs:40-63 | drawing the same sprite at the same place twice restores the screen |
| Display.DrawLeavesOthers | src/display.rs:40-63 | pixels the sprite does not land on keep their value |
| Display.TargetCoordinates | src/display.rs:32-49 | step `(i, j)` of a short sprite lands on column `(x + j) mod 64`, row `(y + i) mod 32` |
| Display.TargetInjective | src/display.rs:32-49 | a sprite of at most 32 rows never lands twice on one pixel |
| Display.PartialRow | src/display.rs:43-56 | within sprite row `i`, drawing is the row's byte XOR-ed column by column onto screen row `start_y + i as u8`; the next row starts where this one ends |
| Display.PartialAt | src/display.rs:43-56 | for sprites of at most 32 rows, once the loops reach row `i`, column `j`, the pixel of an earlier step is the old pixel XOR that step's bit, and the pixel of a later step is untouched |
| Display.PartialCollision | src/display.rs:41-53 | for sprites of at most 32 rows, after any prefix of the loops, the collision flag holds exactly when an earlier set bit met a lit pixel |
| Display.DrawSmallPixels | src/display.rs:43-56 | for at most 32 rows, each pixel the sprite lands on ends up as the old pixel XOR the sprite's bit |
| Display.DrawSmallCollision | src/display.rs:51-62 | for at most 32 rows, VF is 1 exactly when a set bit of the sprite meets a lit pixel |
| Display.PartialTurnsOff | src/display.rs:41-56 | for sprites of any height, after any prefix of the loops, the collision flag holds exactly when an earlier step drew a set bit onto a pixel lit at that moment |
| Display.DrawCollision | src/display.rs:40-63 | for sprites of any height, VF is 1 exactly when some step of the loops turns a lit pixel off |
| Display.FlagMonotone | src/display.rs:41-53 | once set, the collision flag stays set at every later step of the loops |
| Display.DrawOnBlank | src/display.rs:40-63 | on a blank screen there is no collision, and exactly the sprite's set bits turn on |
| Display.DrawTwiceOnBlank | src/display.rs:40-63 | a second draw on a blank screen collides exactly when the sprite has a set bit, and blanks the screen again |
| Display.WrapAround | src/display.rs:32-38 | columns past 63 wrap to column 0, and rows past 31 wrap to row 0 |
| Display.Display.constructor | src/display.rs:9-19 | `Display::new` gives a blank 64x32 screen |
| Display.Display.Clear | src/display.rs:25-30 | after `clear` the screen is a fresh, blank vector |
| Display.Display.Draw | src/display.rs:40-63 | the new pixels and the returned VF value are `DrawOnto` of the old screen; the overflow panic is the same |
| Display.Display.DrawRow | src/display.rs:47-55 | the column loop succeeds exactly when `start_x + 7` fits in a `u8`, and then leaves the pixels and flag of drawing the row's byte column by column (`RowPrefix`) |
| Cpu.Initial | src/cpu.rs:21-23 | the initial state is well formed |
| Cpu.InitialState | src/cpu.rs:21-23 | a fresh processor has registers, I, timers, `sp` and stack at zero, and `pc` at 0x200 |
| Cpu.ReadReg | src/cpu.rs:25-31 | reading succeeds exactly for registers below 15 and returns that register; otherwise it is that register's panic |
| Cpu.WriteReg | src/cpu.rs:33-39 | writing succeeds exactly for registers below 15, and then only that register changes |
| Cpu.ReadAfterWriteReg | src/cpu.rs:25-39 | reading a written register gives the data; any other register reads as before |
| Cpu.SkipIf | src/cpu.rs:75-77 | `self.pc += 2` under a condition: it panics exactly when the condition holds and `pc + 2` overflows a `u16`; otherwise `pc` advances by 2 exactly when the condition holds and nothing else changes |
| Cpu.Bcd | src/cpu.rs:141-143 | the source's three values are decimal digits whose weighted sum is the input |
| Cpu.BcdDigits | src/cpu.rs:141-143 | the source's formula yields the hundreds, tens and ones digits of the value |
| Cpu.BcdExample | src/cpu.rs:141-143 | 157 gives 1,5,7; 0 gives 0,0,0; 255 gives 2,5,5 |
| Cpu.StoreRegs | src/cpu.rs:148-154 | the loop of LD [I], Vx as a recursion; a successful dump keeps memory at 4096 bytes (`StoreRegsSpec` gives its contents) |
| Cpu.LoadRegs | src/cpu.rs:155-161 | the loop of LD Vx, [I] as a recursion; a successful load leaves a well-formed state (`LoadRegsSpec` gives the registers) |
| Cpu.ShiftAfterFlag | src/cpu.rs:109-123 | the rest of SHR and SHL once the VF write has returned: read Vx and store it shifted by one; a success leaves a well-formed state |
| Cpu.FirstBit | src/cpu.rs:110-120 | `(vx & 0x80) >> 7` on the register index is 1 exactly when the index is at least 0x80, and 0 otherwise |
| Cpu.Exec | src/cpu.rs:53-163 | a successful `execute` leaves a well-formed state and a 4096-byte memory |
| Cpu.ExecCpu | src/cpu.rs:56-139 | a successful arm that leaves memory alone leaves a well-formed state |
| Cpu.ExecControl | src/cpu.rs:56-139 | the jump, call, return, skip and unimplemented arms; a success leaves a well-formed state |
| Cpu.ExecRegister | src/cpu.rs:78-138 | the arms that write one register, I or a timer; a success leaves a well-formed state |
| Cpu.ExecFlagged | src/cpu.rs:99-123 | the arms that also write VF; a success leaves a well-formed state (`FlagArmsPanic` shows there is none) |
| Cpu.ExecMemory | src/cpu.rs:140-161 | LD B, LD [I], Vx and LD Vx, [I]; a success leaves a well-formed state and a 4096-byte memory |
| Cpu.CallThenRet | src/cpu.rs:59-74 | CALL then RET restores `pc`, `sp` and the registers; only the pushed stack slot differs |
| Cpu.StackGuards | src/cpu.rs:59-74 | CALL panics with stack overflow exactly when `sp` is 15; RET panics with stack underflow exactly when `sp` is 0 |
| Cpu.Calls | src/cpu.rs:67-74 | a run of CALLs one after another; a success leaves a well-formed state |
| Cpu.CallDepth | src/cpu.rs:67-74 | a run of calls succeeds exactly when it leaves at most 15 frames, and `sp` then counts them |
| Cpu.Skips | src/cpu.rs:75-124 | SE/SNE advance `pc` by 2 exactly when their test holds and change nothing else; they panic only on `u16` overflow or, for SNE Vx, Vy, a guarded register |
| Cpu.SeByteComparesIndex | src/cpu.rs:75 | with V1 = 5, `SE V1, 1` skips and `SE V1, 5` does not |
| Cpu.RegisterArms | src/cpu.rs:78-98 | the one-register arms succeed exactly when their registers are below 15 and the add fits; then only Vx changes, to the arm's value |
| Cpu.RndMasked | src/cpu.rs:127-130 | RND never sets a bit the mask lacks |
| Cpu.FlagArmsPanic | src/cpu.rs:99-123 | ADD Vx,Vy, SUB, SUBN, SHR and SHL always panic, naming the first out-of-range register touched |
| Cpu.IndexAndTimerArms | src/cpu.rs:125-138 | LD I, JP V0, LD DT, LD ST and ADD I each set one field, with `u16` overflow checks where the source adds |
| Cpu.DecodedJpV0Fits | src/cpu.rs:126 | a decoded JP V0 never overflows |
| Cpu.StoreBcd | src/cpu.rs:140-147 | LD B stores the digits of the register number at I..I+2 and nothing else; it fails at the first address past memory |
| Cpu.RegisterDump | src/cpu.rs:148-154 | LD [I], Vx stores V0..Vx at I..I+x, leaves the registers unchanged, and succeeds exactly when x < 15 and I+x < 4096; otherwise it names the guard the loop meets first, the read of VF or the write at 4096 (or at I itself when I is past memory) |
| Cpu.RegisterLoad | src/cpu.rs:155-161 | LD Vx, [I] loads V0..Vx from I..I+x, changes nothing else, and succeeds under the same condition; otherwise it names the guard met first, and on a tie the memory read at 4096 comes before the write of VF |
| Cpu.StoreThenLoad | src/cpu.rs:148-161 | storing then loading the same registers at the same I leaves the registers unchanged |
| Cpu.UnimplementedArms | src/cpu.rs:57-139 | exactly SYS, CLS, DRW, SKP, SKNP, LD key and LD F panic as unimplemented |
| Cpu.ComposeOpcode | src/cpu.rs:44 | `(high << 8) & low`: the result is at most the low byte |
| Cpu.ComposedOpcodeIsZero | src/cpu.rs:44 | `(high << 8) & low` is always 0 |
| Cpu.StepOutcome | src/cpu.rs:41-51 | `step` as a function: a success leaves a well-formed state and a 4096-byte memory; with `pc` or `pc + 1` past memory it is the index panic of that address |
| Cpu.StepAlwaysPanics | src/cpu.rs:41-51 | every step panics: with the memory index when `pc` or `pc + 1` is past memory, and otherwise as unimplemented |
| Cpu.Cpu.constructor | src/cpu.rs:21-23 | `CPU::new` gives the initial state |
| Cpu.Cpu.ReadRegister | src/cpu.rs:25-31 | the method returns `ReadReg` of the state |
| Cpu.Cpu.WriteRegister | src/cpu.rs:33-39 | the new state is `WriteReg` of the old; a rejected register changes nothing |
| Cpu.Cpu.Skip | src/cpu.rs:75-77 | the new state, or the overflow panic, is `SkipIf` of the old one |
| Cpu.Cpu.ShiftAfterFlagWrite | src/cpu.rs:109-123 | given the outcome of the VF write, the new registers, or the panic, are `ShiftAfterFlag` of the old ones |
| Cpu.Cpu.StoreRegisters | src/cpu.rs:148-154 | the loop's new memory is the recursive dump `StoreRegs` |
| Cpu.Cpu.LoadRegisters | src/cpu.rs:155-161 | the loop's new registers are the recursive load `LoadRegs` |
| Cpu.Cpu.Execute | src/cpu.rs:53-163 | the new registers and memory, or the panic, are `Exec` of the old ones |
| Cpu.Cpu.ExecuteCpu | src/cpu.rs:56-139 | for the arms that leave memory alone, the new registers, or the panic, are `ExecCpu` of the old ones |
| Cpu.Cpu.ExecuteControl | src/cpu.rs:56-139 | for the jump, call, return, skip and unimplemented arms, the new registers, or the panic, are `ExecControl` of the old ones |
| Cpu.Cpu.ExecuteRegisters | src/cpu.rs:78-138 | for the arms that write one register, I or a timer, the new registers, or the panic, are `ExecRegister` of the old ones |
| Cpu.Cpu.ExecuteFlagged | src/cpu.rs:99-123 | for the arms that set VF, the new registers, or the panic, are `ExecFlagged` of the old ones |
| Cpu.Cpu.ExecuteMemory | src/cpu.rs:140-161 | for LD B, LD [I], Vx and LD Vx, [I], the new registers and memory, or the panic, are `ExecMemory` of the old ones |
| Cpu.Cpu.Step | src/cpu.rs:41-51 | the new state, or the panic, is `StepOutcome` of the old one |
| Chip8.Load | src/chip8.rs:17-23 | a successful load keeps memory at 4096 bytes |
| Chip8.LoadSpec | src/chip8.rs:17-23 | loading succeeds exactly when the image ends inside memory; memory then holds the image from `addr` and is unchanged elsewhere; a failure names the first address past the end |
| Chip8.RomCapacity | src/chip8.rs:4-23 | from PROGRAM_START, a load succeeds exactly for images of at most 3584 bytes |
| Chip8.LoadKeepsLowMemory | src/chip8.rs:4-23 | loading never touches the bytes below 0x200 |
| Chip8.Chip8.constructor | src/chip8.rs:13-15 | `Chip8::new` holds a fresh processor in its initial state and a fresh memory holding the initial image |
| Chip8.Chip8.LoadRom | src/chip8.rs:17-23 | the new memory, or the panic, is `Load` from PROGRAM_START; the processor is not changed |

## Left out

- Timer ticking and key input: the source has neither. The `todo!` and `unimplemented!` arms (SYS, CLS, DRW, SKP, SKNP, LD Vx, K and LD F) are modelled only as the `Unimplemented` panic.
- `rand::random`: it is a parameter `rnd` of `Exec`, `Execute` and `Step`.
- `print_mem`, `get_ptr`, src/main.rs, ts/index.ts and webpack.config.js: these are I/O, the browser interface, or the build.
- The fields `width` and `height` of `Display`: they are the constants 64 and 32.
- Cpu.Cpu.Execute, Cpu.Cpu.ExecuteCpu, Cpu.Cpu.ExecuteFlagged, Cpu.Cpu.ExecuteMemory, Cpu.Cpu.StoreRegisters, Cpu.Cpu.LoadRegisters, Cpu.Cpu.Step, Chip8.Chip8.LoadRom: these write before they can panic (Vx before the VF write in ADD, SUB and SUBN; V0..VE or memory before the VF guard; the first digits of LD B; the image bytes before the write at 0x1000). For them, as for every method except Cpu.Cpu.WriteRegister and Memory.Memory.WriteByte, the contract names the panic but not the state it leaves. The Rust process does not continue after a panic.
- Display.Display.Draw: a panicking draw may leave the pixels of earlier rows XOR-ed; the contract does not describe those pixels.
- Display.PartialCollision, Display.PartialAt, Display.DrawSmallPixels, Display.DrawSmallCollision, Display.DrawOnBlank, Display.DrawTwiceOnBlank: these are stated only for sprites of at most 32 rows. A taller sprite wraps onto its own rows. `Display.DrawTwiceRestores`, `Display.DrawLeavesOthers`, `Display.PartialIsXor`, `Display.PartialTurnsOff` and `Display.DrawCollision` hold for any height; the last two state the collision flag in terms of the pixels as they are when each step comes rather than the pixels before the draw.
- Integer widths: `u8` and `u16` are subset types of `int`. Overflow of `+` is the explicit overflow panic of a debug build. The other truncations (`as u8`, `<< 1`) are written out as remainders.
