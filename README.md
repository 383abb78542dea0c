# Game Boy "Z80" processor core

This project models the processor core of a small Java Game Boy emulator.
The core is the `Z80` class, which emulates the Sharp LR35902. It holds a
memory of 65535 16-bit `char` cells, eight registers (A, B, C, D, E, H, L
and the flag register F), a 16-bit program counter and stack pointer, a
23040-byte display buffer and a redraw flag. Its methods read and update
this state in place. Two enums name the register slots and the bit
positions of the four flags (Zero, Subtract, HalfCarry, Carry). So far the
emulator has four opcodes:

- 0x00 NOP;
- 0x01, which loads BC with a 16-bit immediate;
- 0x02, which as coded sets B := 0 and C := A;
- 0x0F, which rotates A right and sets Carry and Zero.

`run` fetches the cell at pc. `getOpcode` decodes every value as a NOP.

Java's types are written out:

- a `char` register or memory cell is a `bv16` (`Char`);
- a `char` counter (pc, sp) is an integer in 0..0xFFFF whose `++`/`--` wrap
  explicitly;
- an `int` is a `bv32`;
- a `byte` is a `bv8`.

An index outside an array is not a precondition. It is modelled as the
`IndexOutOfBounds` fault that Java raises.

Layout, one module per file:

- `java_types.dfy` (`JavaTypes`): Java's primitive conversions.
- `registers.dfy` (`Registers`): `Register.java`.
- `flags.dfy` (`Flags`): `Flag.java` and the flag setter.
- `conditions.dfy` (`Conditions`): the branch conditions of `passesCondition`.
- `machine_state.dfy` (`MachineState`): the machine as a value (`State`),
  the power-on state, register pairs and the cartridge image.
- `z80.dfy` (`Cpu`): the `Z80` class. Every method states its new
  `Snapshot()` in terms of the old one.
- `opcodes.dfy` (`Opcodes`): the four opcodes.
  - Each `Execute*` method follows its Java `execute` call by call.
  - Each is proved against a pure `After*` function.
  - Lemmas state what those functions change and keep.
- `interpreter.dfy` (`Interpreter`): `getOpcode` and `run`.
  - `Run` is proved against the pure `Step`.
  - Lemmas cover sequences of steps.

The opcode classes call accessors that `Z80.java` does not define. They are
modelled as their names and call sites require:

- `getRegister` and `setRegister(Register, int)`. Registers are `char`s, so
  the setter stores `(char) value`.
- The pair setter `setRegister(Register, Register, int)`. It writes the
  high and low byte, the inverse of `registerPair`.
- `resetFlagRegister`, which sets F := 0.
- `setFlagRegister(Flag, boolean)`, which sets or clears one bit of F.
- `setProgramCounter(int)`, which is `setProgramCounter((char) value)`.

`readMemory16bit` is not defined either. Its byte order is unknown, so it is
the function parameter `read16`.

## Model

| member | source | states |
|---|---|---|
| Registers.Index | emulator_gameboy/chip/Register.java:4-11 | every register's index is a slot of the 8-element register array, and F (and only F) is slot 7 |
| Registers.RegisterAt | emulator_gameboy/chip/Register.java:4-11 | every slot 0..7 belongs to a register whose index is that slot |
| Registers.IndexIsBijective | emulator_gameboy/chip/Register.java:4-11 | the eight indices are pairwise distinct and `RegisterAt` inverts `Index` |
| Flags.Bit | emulator_gameboy/chip/Flag.java:8-21 | every flag bit lies in 4..7, and Zero (only Zero) is bit 7 |
| Flags.Mask | emulator_gameboy/chip/Flag.java:8-21 | each flag's mask is a single nonzero bit inside the upper nibble of a byte |
| Flags.MaskIsBit | emulator_gameboy/chip/Flag.java:8-21 | the mask of a flag is `1 << bit` |
| Flags.WithFlag | emulator_gameboy/chip/Flag.java:8-21 | setting a flag makes its bit equal to `on` and keeps every other bit of F |
| Flags.FlagsAreIndependent | emulator_gameboy/chip/Flag.java:8-21 | distinct flags have distinct bits, so setting or clearing one never changes whether another is set |
| Flags.FlagsLeaveOtherBits | emulator_gameboy/chip/Flag.java:8-21 | setting or clearing any flag keeps the lower nibble and the upper byte of F |
| Flags.ZeroIsTopBit | emulator_gameboy/chip/Flag.java:8 | for F < 256, `F >>> Zero.bit` is 0 or 1, and it is 1 iff the Zero flag is set |
| Conditions.PassesAsWritten | emulator_gameboy/chip/Z80.java:112-121 | the tests as coded: NZ iff bits 7..15 of F are clear, Z iff they are exactly 0b1, NC iff bits 4..15 are clear, C iff they are exactly 0b1 |
| Conditions.Passes | emulator_gameboy/chip/Z80.java:103-107 | the documented conditions: NZ/Z iff the Zero flag is clear/set, NC/C iff the Carry flag is clear/set |
| Conditions.PassesComplementary | emulator_gameboy/chip/Z80.java:103-107 | each documented condition holds exactly when its negation fails |
| Conditions.ZeroTestsAsWrittenAreBitTests | emulator_gameboy/chip/Z80.java:114-117 | for F < 256 exactly one of NZ and Z holds, Z iff bit 7 is set, both as documented |
| Conditions.CarryTestsAsWrittenMisread | emulator_gameboy/chip/Z80.java:118-121 | with F = 0x90 Carry is set, yet neither C nor NC passes as coded |
| Conditions.CarryTestsAgreeWhenUpperBitsClear | emulator_gameboy/chip/Z80.java:118-121 | the coded carry tests agree with the documented ones iff bits 5..15 of F are clear; otherwise both fail |
| JavaTypes.CharOfInt | emulator_gameboy/chip/opcode/Opcode01Load.java:11 | `(char) v` is `v` for values in range and otherwise differs from `v` by a multiple of 2^16 |
| JavaTypes.CharInc | emulator_gameboy/chip/Z80.java:178-188 | `++` on a char counter adds one below 0xFFFF and wraps 0xFFFF to 0 |
| JavaTypes.CharDec | emulator_gameboy/chip/Z80.java:178-188 | `--` on a char counter subtracts one above 0 and wraps 0 to 0xFFFF |
| JavaTypes.IncrementUndoesDecrement | emulator_gameboy/chip/Z80.java:178-188 | increment after decrement and decrement after increment restore the counter |
| JavaTypes.ToChar | emulator_gameboy/chip/opcode/Opcode0FRotateRight.java:18 | the `(char)` cast of an int keeps exactly its low 16 bits |
| JavaTypes.Widen | emulator_gameboy/chip/opcode/Opcode0FRotateRight.java:11 | a char promoted to int is below 2^16 |
| JavaTypes.NarrowWiden | emulator_gameboy/chip/opcode/Opcode02Load.java:11 | narrowing a widened char gives the char back |
| JavaTypes.CharOfByte | emulator_gameboy/chip/Z80.java:229-231 | `(char) b` keeps the byte's 8 bits, stays below 0x80 for a non-negative byte and lands in 0xFF80..0xFFFF exactly for a negative one |
| JavaTypes.UnsignedByte | emulator_gameboy/chip/Z80.java:245 | `(char) (b & 0xFF)` keeps the byte's 8 bits and is at most 0xFF |
| JavaTypes.SignExtensionDiffers | emulator_gameboy/chip/Z80.java:229-245 | the two byte conversions agree on non-negative bytes and differ by the filled upper byte on negative ones |
| MachineState.PowerOn | emulator_gameboy/chip/Z80.java:61-67 | after reset: 65535 zero memory cells, 8 zero registers, 23040 zero display bytes, pc = 0x100, sp = 0xFFFE |
| MachineState.PairValue | emulator_gameboy/chip/Z80.java:98-100 | for byte registers the pair is below 2^16, with the left register as its high byte and the right one as its low byte |
| MachineState.HighByte | emulator_gameboy/chip/Z80.java:98-100 | the high byte of a value is at most 0xFF and is bits 8..15 of the value |
| MachineState.LowByte | emulator_gameboy/chip/Z80.java:98-100 | the low byte of a value is at most 0xFF and is bits 0..7 of the value |
| MachineState.PairRoundTrip | emulator_gameboy/chip/Z80.java:98-100 | splitting a value into bytes and pairing them back gives its low 16 bits, and pairing two bytes then splitting gives them back |
| MachineState.Loaded | emulator_gameboy/chip/Z80.java:243-247 | the cartridge image: cell i holds `b & 0xFF` of byte i for the bytes that fit, every later cell is unchanged, and the length is kept |
| Cpu.Z80.Reset | emulator_gameboy/chip/Z80.java:61-67 | fresh arrays, and the new machine value is the power-on state with the redraw flag kept |
| Cpu.Z80.RegisterPair | emulator_gameboy/chip/Z80.java:98-100 | for byte registers the pair is below 2^16, and its high and low bytes are the left and right registers |
| Cpu.Z80.PassesCondition | emulator_gameboy/chip/Z80.java:112-126 | as coded: for an 8-bit F the Z/NZ tests are the documented bit tests; C iff the upper nibble is exactly 0b0001, NC iff it is 0 |
| Cpu.Z80.ReadMemory | emulator_gameboy/chip/Z80.java:149-151 | succeeds exactly for addresses 0..65534 and yields that cell; 0xFFFF and negative addresses raise the index exception |
| Cpu.Z80.WriteMemory | emulator_gameboy/chip/Z80.java:174-176 | a valid address is updated and reads back as the value, every other address reads as before, and an invalid address raises the exception without a change |
| Cpu.Z80.SetStackPointer | emulator_gameboy/chip/Z80.java:157-159 | sp becomes the value and nothing else changes |
| Cpu.Z80.SetProgramCounter | emulator_gameboy/chip/Z80.java:165-167 | pc becomes the value and nothing else changes |
| Cpu.Z80.IncrementStackPointer | emulator_gameboy/chip/Z80.java:178-180 | sp advances by one modulo 2^16 and nothing else changes |
| Cpu.Z80.DecrementStackPointer | emulator_gameboy/chip/Z80.java:182-184 | sp goes back by one modulo 2^16 and nothing else changes |
| Cpu.Z80.IncrementProgramCounter | emulator_gameboy/chip/Z80.java:186-188 | pc advances by one modulo 2^16 and nothing else changes |
| Cpu.Z80.RemoveDrawFlag | emulator_gameboy/chip/Z80.java:211-213 | the redraw flag is cleared and nothing else changes |
| Cpu.Z80.SetKeys | emulator_gameboy/chip/Z80.java:229-231 | only cell 0xFF00 changes, to the sign-extended key byte, and reads back as it |
| Cpu.Z80.SetRegister | emulator_gameboy/chip/opcode/Opcode02Load.java:10-11 | one register becomes `(char) value`, and no other register or field changes |
| Cpu.Z80.SetRegisterPair | emulator_gameboy/chip/opcode/Opcode01Load.java:10 | the high register gets bits 8..15 and the low register bits 0..7 of the value; the pair then reads back the value's low 16 bits; nothing else changes |
| Cpu.Z80.ResetFlagRegister | emulator_gameboy/chip/opcode/Opcode0FRotateRight.java:13 | F becomes 0 and nothing else changes |
| Cpu.Z80.SetFlagRegister | emulator_gameboy/chip/opcode/Opcode0FRotateRight.java:14 | F has the flag's bit set or cleared, with every other bit kept, and nothing else changes |
| Cpu.Z80.LoadCartridge | emulator_gameboy/chip/Z80.java:243-247 | memory becomes the cartridge image of the bytes; more than 65535 bytes raise the index exception at offset 65535 after the first 65535 are stored |
| Opcodes.CycleCount | emulator_gameboy/chip/opcode/Opcode00NOP.java:13-15 | each opcode takes a whole number of 4-clock machine cycles, 4 to 12, and exactly NOP and the rotate take 4 (NOP 4, 0x01 12, 0x02 8, 0x0F 4) |
| Opcodes.NopEffect | emulator_gameboy/chip/opcode/Opcode00NOP.java:8-10 | NOP advances pc by one modulo 2^16 and changes no register, sp, memory, display or redraw flag |
| Opcodes.NopsAdvance | emulator_gameboy/chip/opcode/Opcode00NOP.java:9 | n consecutive NOPs advance pc by n modulo 2^16 and change nothing else |
| Opcodes.LoadBCImmediateEffect | emulator_gameboy/chip/opcode/Opcode01Load.java:10-11 | the BC pair holds the value read at old pc + 1, pc advances by 3 modulo 2^16, and only B and C change among the registers |
| Opcodes.LoadBCFromAEffect | emulator_gameboy/chip/opcode/Opcode02Load.java:10-12 | B = 0, C = old A, pc advances by one modulo 2^16, memory and the other registers are unchanged |
| Opcodes.RotatedA | emulator_gameboy/chip/opcode/Opcode0FRotateRight.java:15-16 | for an 8-bit A the result is 8-bit, with bits 0..6 the old bits 1..7 and bit 7 the old bit 0; the result is 0 iff A is 0 |
| Opcodes.RotateFlags | emulator_gameboy/chip/opcode/Opcode0FRotateRight.java:12-17 | the new F is 8-bit with only Zero and Carry possibly set: Carry iff old bit 0 of A, Zero iff A is 0 |
| Opcodes.RotateRightAEffect | emulator_gameboy/chip/opcode/Opcode0FRotateRight.java:10-19 | A is rotated, F holds the new flags, pc is not advanced, and nothing else changes |
| Opcodes.EightRotationsRestoreA | emulator_gameboy/chip/opcode/Opcode0FRotateRight.java:15-16 | eight executions restore an 8-bit A and leave pc, sp, memory and the registers other than F unchanged |
| Opcodes.EightRotationsOfAByte | emulator_gameboy/chip/opcode/Opcode0FRotateRight.java:15-16 | rotating a byte right eight times gives it back |
| Opcodes.Apply | emulator_gameboy/chip/opcode/IOpcode.java:5-9 | every opcode keeps the machine well formed |
| Opcodes.ExecuteNop | emulator_gameboy/chip/opcode/Opcode00NOP.java:8-10 | the machine's new value is `AfterNop` of the old one |
| Opcodes.ExecuteLoadBCImmediate | emulator_gameboy/chip/opcode/Opcode01Load.java:9-12 | the machine's new value is `AfterLoadBCImmediate` of the old one |
| Opcodes.ExecuteLoadBCFromA | emulator_gameboy/chip/opcode/Opcode02Load.java:9-13 | the machine's new value is `AfterLoadBCFromA` of the old one |
| Opcodes.ExecuteRotateRightA | emulator_gameboy/chip/opcode/Opcode0FRotateRight.java:10-19 | the Java steps leave the machine at `AfterRotateRightA` of the old value |
| Opcodes.RotateSteps | emulator_gameboy/chip/opcode/Opcode0FRotateRight.java:11-18 | the local `flagA` and `bitZero` computations produce the rotated A and the new F |
| Opcodes.Execute | emulator_gameboy/chip/opcode/IOpcode.java:5-9 | executing any opcode leaves the machine at `Apply` of the old value |
| Interpreter.Decode | emulator_gameboy/chip/Z80.java:80-89 | every cell decodes as NOP; it is recognised (no "unprocessed" report) iff it is 0x00 |
| Interpreter.FetchOpcode | emulator_gameboy/chip/Z80.java:80-81 | the fetch succeeds iff pc is inside memory, then yields NOP; at pc = 0xFFFF it raises the index exception |
| Interpreter.Step | emulator_gameboy/chip/Z80.java:74-78 | one run keeps the machine well formed when it succeeds |
| Interpreter.Steps | emulator_gameboy/chip/Z80.java:74-78 | a sequence of runs keeps the machine well formed when it succeeds |
| Interpreter.Run | emulator_gameboy/chip/Z80.java:74-78 | the cycle count and the new machine value are those of `Step`; on a fetch exception nothing changes |
| Interpreter.StepIsNop | emulator_gameboy/chip/Z80.java:74-89 | below 0xFFFF one run advances pc by exactly one and returns 4, leaving registers, sp and memory unchanged; at 0xFFFF it faults |
| Interpreter.StepsAdvance | emulator_gameboy/chip/Z80.java:74-89 | n runs inside memory advance pc by n, take 4n cycles and change nothing else |
| Interpreter.StepsFault | emulator_gameboy/chip/Z80.java:74-89 | from n cells before the end, the (n+1)-th run raises the index exception at 0xFFFF |
| Interpreter.RunsOffTheEnd | emulator_gameboy/chip/Z80.java:63-89 | from any pc in memory, runs succeed up to the last cell and the next one faults at 0xFFFF |

## Left out

- The I/O of `loadCartridge` is left out: opening and reading the file, `available()`, the `IOException` handler with `System.exit`, and closing the stream. `LoadCartridge` takes the file's bytes as a sequence.
- The "Unprocessed opcode" message that `getOpcode` prints is left out. `Decode` reports whether it would be printed.
- `Run` and `FetchOpcode` are declared in the `Interpreter` module as members that take the `Z80`. They are not methods of the class, because the opcodes module depends on the class.
- Only the size of the display is modelled. Nothing but `reset` writes it.
- `readMemory16bit` is not defined in the code and its byte order is not shown. It is the parameter `read16`, which takes the Java int address `pc + 1` unwrapped.
- `registerPair` takes `Register` values instead of int indices, so an index outside 0..7 cannot occur.
- `getStackPointer`, `getProgramCounter`, `getDisplay`, `needsRedraw` and `getRegister` only return a field. They carry no contract.
- The constructor stands for Java's default field values. Empty arrays stand for the null arrays, and the machine is used only after `Reset`.
- The `IOpcode` interface becomes the `Opcode` datatype with `CycleCount`. The opcode objects' allocation is not modelled.
- The Swing window, the display panel and the main loop, with its timing and threads, are not part of this model.
- Real LR35902 behaviour is not modelled where the code differs from it. The model follows the code:
  - 0x02 does not store A at address BC;
  - 0x0F sets Zero when the result is 0;
  - 0x0F does not advance pc.
- The default branch of `passesCondition` throws an exception that cannot occur, because `Condition` has only four values. It has no counterpart.

## Findings

| source | as written | input that shows it | evidently intended | confidence | as-written member | corrected member |
|---|---|---|---|---|---|---|
| emulator_gameboy/chip/Z80.java:118-121 | the NC and C tests compare all of `F >>> 4` with 0 and 1, so bits 5..7 (Zero, Subtract, HalfCarry) take part in the comparison | F = 0x90 (Zero and Carry set): `F >>> 4` is 9, so neither C nor NC passes | C iff the Carry bit is set, NC iff it is clear, as the doc comment at lines 103-107 says | not executed | Conditions.PassesAsWritten (with Conditions.CarryTestsAsWrittenMisread; Cpu.Z80.PassesCondition keeps the coded test) | Conditions.Passes (with Conditions.PassesComplementary) |
