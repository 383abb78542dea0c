/** The Z80 (Sharp LR35902) processor object: memory, registers, program
    counter, stack pointer, display buffer and redraw flag, updated in place
    by its methods and by the opcodes. `Snapshot()` is the machine's value,
    and every method states the new `Snapshot()` in terms of the old one. */
module Cpu {

  import opened JavaTypes
  import opened Registers
  import opened Flags
  import Conditions
  import opened MachineState

  class Z80 {

    /** The 144x160 pixel, 4 colour display. */
    var display: array<Byte>
    /** 64K memory map, as allocated: 65535 cells. */
    var memory: array<Char>
    /** The eight registers A, B, C, D, E, H, L, F, indexed by `Index`. */
    var register: array<Char>
    var sp: CharNum
    var pc: CharNum
    var needRedraw: bool

    /** The arrays have the lengths `reset` gives them; memory and the
        register file are different arrays. */
    ghost predicate Valid()
      reads this
    {
      memory.Length == MemorySize && register.Length == RegisterCount &&
      display.Length == DisplaySize && memory != register
    }

    /** The machine's current value. */
    function Snapshot(): (s: State)
      reads this, memory, register, display
      ensures Valid() ==> WellFormed(s)
    {
      State(memory[..], register[..], pc, sp, display[..], needRedraw)
    }

    /** The implicit constructor: nothing is allocated yet (empty arrays
        stand for the null fields) and the counters hold Java's defaults.
        The machine is usable after `Reset`. */
    constructor ()
      ensures pc == 0 && sp == 0 && !needRedraw
      ensures memory.Length == 0 && register.Length == 0 && display.Length == 0
    {
      display := new Byte[0];
      memory := new Char[0];
      register := new Char[0];
      sp, pc, needRedraw := 0, 0, false;
    }

    /** `reset`: fresh zeroed display, memory and registers, pc = 0x100,
        sp = 0xFFFE; the redraw flag is left as it was. */
    method Reset()
      modifies this
      ensures Valid() && fresh(memory) && fresh(register) && fresh(display)
      ensures Snapshot() == PowerOn(old(needRedraw))
    {
      display := new Byte[DisplaySize](_ => 0);
      memory := new Char[MemorySize](_ => 0);
      register := new Char[RegisterCount](_ => 0);
      pc := StartPc;
      sp := StartSp;
    }

    function GetStackPointer(): CharNum
      reads this
    {
      sp
    }

    function GetProgramCounter(): CharNum
      reads this
    {
      pc
    }

    function GetDisplay(): array<Byte>
      reads this
    {
      display
    }

    function NeedsRedraw(): bool
      reads this
    {
      needRedraw
    }

    /** `getRegister`: the value of one register. */
    function GetRegister(r: Register): Char
      reads this, register
      requires Valid()
    {
      register[Index(r)]
    }

    /** `registerPair`: the left register as the high byte and the right one
        as the low byte of a 16-bit value. */
    function RegisterPair(left: Register, right: Register): (v: Int)
      reads this, register
      requires Valid()
      ensures GetRegister(left) <= 0xFF && GetRegister(right) <= 0xFF ==>
                v <= 0xFFFF && HighByte(v) == GetRegister(left) && LowByte(v) == GetRegister(right)
    {
      PairValue(register[Index(left)], register[Index(right)])
    }

    /** `passesCondition`, with the tests as the code writes them: for an
        8-bit F the zero tests are the documented bit tests, while C holds
        only if the upper nibble is exactly 0b0001 and NC only if it is 0. */
    function PassesCondition(cc: Conditions.Condition): (b: bool)
      reads this, register
      requires Valid()
      ensures GetRegister(F) <= 0xFF && (cc == Conditions.NZ || cc == Conditions.Z) ==>
                b == Conditions.Passes(GetRegister(F), cc)
      ensures GetRegister(F) <= 0xFF && cc == Conditions.C ==> (b <==> GetRegister(F) & 0xF0 == 0x10)
      ensures GetRegister(F) <= 0xFF && cc == Conditions.NC ==> (b <==> GetRegister(F) & 0xF0 == 0)
    {
      Conditions.PassesAsWritten(register[Index(F)], cc)
    }

    /** `readMemory`: the cell at an address; an address outside the array,
        0xFFFF included, raises an index exception. */
    function ReadMemory(address: int): (r: Result<Char>)
      reads this, memory
      requires Valid()
      ensures r.Ok? <==> 0 <= address < MemorySize
      ensures r.Ok? ==> r.value == Snapshot().memory[address]
    {
      if 0 <= address < memory.Length then Ok(memory[address]) else Err(IndexOutOfBounds(address))
    }

    /** `writeMemory`: stores one cell and changes nothing else; reading the
        address back yields the value. */
    method WriteMemory(address: int, value: Char) returns (r: Outcome)
      requires Valid()
      modifies memory
      ensures Valid()
      ensures r == if 0 <= address < MemorySize then Pass else Fail(IndexOutOfBounds(address))
      ensures r.Pass? ==> Snapshot() == old(Snapshot()).(memory := old(memory[..])[address := value])
      ensures r.Fail? ==> Snapshot() == old(Snapshot())
      ensures r.Pass? ==> ReadMemory(address) == Ok(value)
      ensures forall a :: a != address ==> ReadMemory(a) == old(ReadMemory(a))
    {
      if 0 <= address < memory.Length {
        memory[address] := value;
        r := Pass;
      } else {
        r := Fail(IndexOutOfBounds(address));
      }
    }

    method SetStackPointer(value: CharNum)
      modifies this`sp
      ensures Snapshot() == old(Snapshot()).(sp := value)
    {
      sp := value;
    }

    method SetProgramCounter(value: CharNum)
      modifies this`pc
      ensures Snapshot() == old(Snapshot()).(pc := value)
    {
      pc := value;
    }

    /** `++sp`, wrapping from 0xFFFF to 0; nothing else changes. */
    method IncrementStackPointer()
      modifies this`sp
      ensures Snapshot() == old(Snapshot()).(sp := CharInc(old(sp)))
    {
      sp := CharInc(sp);
    }

    /** `--sp`, wrapping from 0 to 0xFFFF; nothing else changes. */
    method DecrementStackPointer()
      modifies this`sp
      ensures Snapshot() == old(Snapshot()).(sp := CharDec(old(sp)))
    {
      sp := CharDec(sp);
    }

    /** `++pc`, wrapping from 0xFFFF to 0; nothing else changes. */
    method IncrementProgramCounter()
      modifies this`pc
      ensures Snapshot() == old(Snapshot()).(pc := CharInc(old(pc)))
    {
      pc := CharInc(pc);
    }

    /** `removeDrawFlag`: the display has been redrawn. */
    method RemoveDrawFlag()
      modifies this`needRedraw
      ensures Snapshot() == old(Snapshot()).(needRedraw := false)
    {
      needRedraw := false;
    }

    /** `setKeys`: stores the key byte at 0xFF00 through `(char) b`, which
        sign-extends it, so a negative byte fills the upper eight bits. */
    method SetKeys(b: Byte)
      requires Valid()
      modifies memory
      ensures Valid()
      ensures Snapshot() == old(Snapshot()).(memory := old(memory[..])[KeysAddress := CharOfByte(b)])
      ensures ReadMemory(KeysAddress) == Ok(CharOfByte(b))
    {
      memory[KeysAddress] := CharOfByte(b);
    }

    /** `setRegister(Register, int)`: stores `(char) value` in one register. */
    method SetRegister(r: Register, value: Int)
      requires Valid()
      modifies register
      ensures Valid()
      ensures register[..] == old(register[..])[Index(r) := ToChar(value)]
      ensures Snapshot() == old(Snapshot()).(register := register[..])
    {
      register[Index(r)] := ToChar(value);
    }

    /** `setRegister(Register, Register, int)`: splits a 16-bit value over a
        register pair, the inverse of `registerPair`. */
    method SetRegisterPair(high: Register, low: Register, value: Int)
      requires Valid()
      modifies register
      ensures Valid()
      ensures register[..] == old(register[..])[Index(high) := HighByte(value)][Index(low) := LowByte(value)]
      ensures Snapshot() == old(Snapshot()).(register := register[..])
      ensures high != low ==> RegisterPair(high, low) == value & 0xFFFF
    {
      register[Index(high)] := HighByte(value);
      register[Index(low)] := LowByte(value);
      PairRoundTrip(value, 0, 0);
      IndexIsBijective(high, low, 0);
    }

    /** `resetFlagRegister`: F := 0. */
    method ResetFlagRegister()
      requires Valid()
      modifies register
      ensures Valid()
      ensures register[..] == old(register[..])[Index(F) := 0]
      ensures Snapshot() == old(Snapshot()).(register := register[..])
    {
      register[Index(F)] := 0;
    }

    /** `setFlagRegister`: sets or clears one flag's bit of F. */
    method SetFlagRegister(f: Flag, on: bool)
      requires Valid()
      modifies register
      ensures Valid()
      ensures register[..] == old(register[..])[Index(F) := WithFlag(old(register[Index(F)]), f, on)]
      ensures Snapshot() == old(Snapshot()).(register := register[..])
    {
      register[Index(F)] := WithFlag(register[Index(F)], f, on);
    }

    /** The copy loop of `loadCartridge` over the file's bytes: byte i goes to
        cell i as `b & 0xFF`. A cartridge longer than memory raises an index
        exception at cell 65535, after the first 65535 bytes are stored. */
    method LoadCartridge(data: seq<Byte>) returns (r: Outcome)
      requires Valid()
      modifies memory
      ensures Valid()
      ensures r == if |data| <= MemorySize then Pass else Fail(IndexOutOfBounds(MemorySize))
      ensures Snapshot() == old(Snapshot()).(memory := Loaded(old(memory[..]), data))
    {
      var offset := 0;
      while offset < |data|
        invariant 0 <= offset <= |data| && offset <= memory.Length
        invariant forall i :: 0 <= i < offset ==> memory[i] == UnsignedByte(data[i])
        invariant forall i :: offset <= i < memory.Length ==> memory[i] == old(memory[i])
      {
        if offset == memory.Length {
          assert memory[..] == Loaded(old(memory[..]), data);
          return Fail(IndexOutOfBounds(offset));
        }
        memory[offset] := UnsignedByte(data[offset]);
        offset := offset + 1;
      }
      assert memory[..] == Loaded(old(memory[..]), data);
      r := Pass;
    }
  }
}
