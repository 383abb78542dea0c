/** The opcodes that exist so far. Each one is an effect on the machine
    (`Execute*`, which updates the `Z80` in place as the Java code does)
    specified by a function from the old machine value to the new one
    (`After*`); the lemmas state what those functions promise. */
module Opcodes {

  import opened JavaTypes
  import opened Registers
  import opened Flags
  import opened MachineState
  import opened Cpu

  /** The implementations of the opcode interface. */
  datatype Opcode = Nop | LoadBCImmediate | LoadBCFromA | RotateRightA

  /** `getCycleCount` of each opcode: clock cycles, whole machine cycles of
      four clocks each. */
  function CycleCount(op: Opcode): (n: nat)
    ensures n % 4 == 0 && 4 <= n <= 12
    ensures op == Nop || op == RotateRightA <==> n == 4
  {
    match op
    case Nop => 4
    case LoadBCImmediate => 12
    case LoadBCFromA => 8
    case RotateRightA => 4
  }

  /** Opcode 0x00 (NOP): only the program counter advances. */
  function AfterNop(s: State): State
  {
    s.(pc := CharInc(s.pc))
  }

  /** Opcode 0x01 (LD BC,d16): BC receives the 16-bit value that
      `readMemory16bit` returns for the address after the opcode, and pc
      moves past the opcode and its two operand bytes. `read16` stands for
      `readMemory16bit`, whose byte order is not part of the code. */
  function AfterLoadBCImmediate(s: State, read16: int -> Int): State
    requires WellFormed(s)
  {
    var v := read16(s.pc + 1);
    s.(register := s.register[Index(B) := HighByte(v)][Index(C) := LowByte(v)],
       pc := CharOfInt(s.pc + 3))
  }

  /** Opcode 0x02 as coded: B := 0, C := A, pc advances by one. */
  function AfterLoadBCFromA(s: State): State
    requires WellFormed(s)
  {
    s.(register := s.register[Index(B) := 0][Index(C) := Reg(s, A)], pc := CharInc(s.pc))
  }

  /** `(A >>> 1) | ((A & 1) << 7)` over the int promotion of A. */
  function RotateRightInt(a: Char): Int
  {
    (Widen(a) >> 1) | ((Widen(a) & 1) << 7)
  }

  /** The new A of opcode 0x0F. For an 8-bit A it is A rotated right by one
      bit: bit 0 moves to bit 7, bits 1..7 move down one place. */
  function RotatedA(a: Char): (r: Char)
    ensures a <= 0xFF ==> r <= 0xFF
    ensures a <= 0xFF ==> r & 0x7F == a >> 1 && r >> 7 == a & 1
    ensures r == 0 <==> a == 0
  {
    ToChar(RotateRightInt(a))
  }

  /** The new F of opcode 0x0F: F is cleared, Carry receives bit 0 of A,
      and Zero is set iff the rotated value is 0. */
  function RotateFlags(a: Char): (f: Char)
    ensures f <= 0xFF && f & 0x6F == 0
    ensures IsSet(f, Carry) <==> a & 1 == 1
    ensures IsSet(f, Zero) <==> a == 0
    ensures !IsSet(f, Subtract) && !IsSet(f, HalfCarry)
  {
    WithFlag(WithFlag(0, Carry, Widen(a) & 1 == 1), Zero, RotateRightInt(a) == 0)
  }

  /** Opcode 0x0F (RRCA) as coded: A and F change; pc does not advance. */
  function AfterRotateRightA(s: State): State
    requires WellFormed(s)
  {
    var a := Reg(s, A);
    s.(register := s.register[Index(F) := RotateFlags(a)][Index(A) := RotatedA(a)])
  }

  /** The effect of one opcode: what `execute` does. */
  function Apply(op: Opcode, s: State, read16: int -> Int): (t: State)
    requires WellFormed(s)
    ensures WellFormed(t)
  {
    match op
    case Nop => AfterNop(s)
    case LoadBCImmediate => AfterLoadBCImmediate(s, read16)
    case LoadBCFromA => AfterLoadBCFromA(s)
    case RotateRightA => AfterRotateRightA(s)
  }

  /** True iff two states agree everywhere except possibly in pc and in the
      listed registers. */
  predicate SameExcept(s: State, t: State, changed: set<Register>)
    requires WellFormed(s) && WellFormed(t)
  {
    t.memory == s.memory && t.sp == s.sp && t.display == s.display &&
    t.needRedraw == s.needRedraw &&
    forall r :: r !in changed ==> Reg(t, r) == Reg(s, r)
  }

  /** NOP changes nothing but pc, which advances by one modulo 2^16. */
  lemma NopEffect(s: State)
    requires WellFormed(s)
    ensures AfterNop(s).pc == (s.pc + 1) % CharModulus
    ensures WellFormed(AfterNop(s)) && SameExcept(s, AfterNop(s), {})
  {
  }

  /** `n` NOPs in a row. */
  function RunNops(s: State, n: nat): State
  {
    if n == 0 then s else AfterNop(RunNops(s, n - 1))
  }

  /** `n` consecutive NOPs advance pc by `n` modulo 2^16 and change nothing
      else. */
  lemma {:induction false} NopsAdvance(s: State, n: nat)
    ensures RunNops(s, n) == s.(pc := (s.pc + n) % CharModulus)
  {
    if n > 0 {
      NopsAdvance(s, n - 1);
      var p := (s.pc + (n - 1)) % CharModulus;
      assert (p + 1) % CharModulus == (s.pc + n) % CharModulus by {
        ModAddOne(s.pc + (n - 1));
      }
    }
  }

  /** Adding one modulo 2^16 after reducing modulo 2^16 is the same as
      reducing afterwards. */
  lemma ModAddOne(x: nat)
    ensures (x % CharModulus + 1) % CharModulus == (x + 1) % CharModulus
  {
    var q := x / CharModulus;
    var r := x % CharModulus;
    assert x == q * CharModulus + r;
    if r + 1 == CharModulus {
      assert x + 1 == (q + 1) * CharModulus;
    } else {
      assert x + 1 == q * CharModulus + (r + 1);
    }
  }

  /** Opcode 0x01: the BC pair holds the value read at old pc + 1 (its low
      16 bits), pc advances by 3 modulo 2^16, nothing else changes. */
  lemma LoadBCImmediateEffect(s: State, read16: int -> Int)
    requires WellFormed(s)
    ensures var t := AfterLoadBCImmediate(s, read16);
      WellFormed(t) &&
      PairValue(Reg(t, B), Reg(t, C)) == read16(s.pc + 1) & 0xFFFF &&
      t.pc == (s.pc + 3) % CharModulus &&
      SameExcept(s, t, {B, C})
  {
    PairRoundTrip(read16(s.pc + 1), 0, 0);
  }

  /** Opcode 0x02: B = 0, C = old A, pc advances by one modulo 2^16, and
      memory is untouched (no store to (BC) happens). */
  lemma LoadBCFromAEffect(s: State)
    requires WellFormed(s)
    ensures var t := AfterLoadBCFromA(s);
      WellFormed(t) && Reg(t, B) == 0 && Reg(t, C) == Reg(s, A) &&
      t.pc == (s.pc + 1) % CharModulus &&
      SameExcept(s, t, {B, C})
  {
  }

  /** Opcode 0x0F: A is rotated, F holds only the new Carry and Zero flags,
      and pc, sp, memory and the other registers are unchanged. */
  lemma RotateRightAEffect(s: State)
    requires WellFormed(s)
    ensures var t := AfterRotateRightA(s);
      WellFormed(t) && Reg(t, A) == RotatedA(Reg(s, A)) &&
      Reg(t, F) == RotateFlags(Reg(s, A)) &&
      t.pc == s.pc && SameExcept(s, t, {A, F})
  {
  }

  /** `n` executions of opcode 0x0F in a row. */
  function RunRotations(s: State, n: nat): (t: State)
    requires WellFormed(s)
    ensures WellFormed(t)
  {
    if n == 0 then s else AfterRotateRightA(RunRotations(s, n - 1))
  }

  /** Eight rotations bring an 8-bit A back, leaving pc, sp, memory and the
      registers other than F as they were. */
  lemma EightRotationsRestoreA(s: State)
    requires WellFormed(s) && Reg(s, A) <= 0xFF
    ensures var t := RunRotations(s, 8);
      Reg(t, A) == Reg(s, A) && t.pc == s.pc && SameExcept(s, t, {F})
  {
    var s1 := AfterRotateRightA(s);
    var s2 := AfterRotateRightA(s1);
    var s3 := AfterRotateRightA(s2);
    var s4 := AfterRotateRightA(s3);
    var s5 := AfterRotateRightA(s4);
    var s6 := AfterRotateRightA(s5);
    var s7 := AfterRotateRightA(s6);
    var s8 := AfterRotateRightA(s7);
    assert RunRotations(s, 1) == s1;
    assert RunRotations(s, 2) == s2;
    assert RunRotations(s, 3) == s3;
    assert RunRotations(s, 4) == s4;
    assert RunRotations(s, 5) == s5;
    assert RunRotations(s, 6) == s6;
    assert RunRotations(s, 7) == s7;
    assert RunRotations(s, 8) == s8;
    RotateRightAEffect(s);
    RotateRightAEffect(s1);
    RotateRightAEffect(s2);
    RotateRightAEffect(s3);
    RotateRightAEffect(s4);
    RotateRightAEffect(s5);
    RotateRightAEffect(s6);
    RotateRightAEffect(s7);
    EightRotationsOfAByte(Reg(s, A));
  }

  /** Rotating a byte right eight times gives it back. */
  lemma EightRotationsOfAByte(a: Char)
    requires a <= 0xFF
    ensures RotatedA(RotatedA(RotatedA(RotatedA(RotatedA(RotatedA(RotatedA(RotatedA(a)))))))) == a
  {
  }

  /** `execute` of opcode 0x00. */
  method ExecuteNop(m: Z80)
    requires m.Valid()
    modifies m`pc
    ensures m.Valid()
    ensures m.Snapshot() == AfterNop(old(m.Snapshot()))
  {
    m.IncrementProgramCounter();
  }

  /** `execute` of opcode 0x01: the pair is written with the value read at
      pc + 1 (an int, not wrapped), then pc is set to `(char) (pc + 3)`. */
  method ExecuteLoadBCImmediate(m: Z80, read16: int -> Int)
    requires m.Valid()
    modifies m`pc, m.register
    ensures m.Valid()
    ensures m.Snapshot() == AfterLoadBCImmediate(old(m.Snapshot()), read16)
  {
    m.SetRegisterPair(B, C, read16(m.GetProgramCounter() + 1));
    m.SetProgramCounter(CharOfInt(m.GetProgramCounter() + 3));
  }

  /** `execute` of opcode 0x02: B, then C, then pc. */
  method ExecuteLoadBCFromA(m: Z80)
    requires m.Valid()
    modifies m`pc, m.register
    ensures m.Valid()
    ensures m.Snapshot() == AfterLoadBCFromA(old(m.Snapshot()))
  {
    m.SetRegister(B, 0);
    m.SetRegister(C, Widen(m.GetRegister(A)));
    NarrowWiden(old(m.register[Index(A)]));
    m.IncrementProgramCounter();
  }

  /** `execute` of opcode 0x0F, step by step as the Java code does it. */
  method ExecuteRotateRightA(m: Z80)
    requires m.Valid()
    modifies m.register
    ensures m.Valid()
    ensures m.Snapshot() == AfterRotateRightA(old(m.Snapshot()))
  {
    ghost var a := m.GetRegister(A);
    var flagA := Widen(m.GetRegister(A));
    var bitZero := flagA & 1;
    m.ResetFlagRegister();
    m.SetFlagRegister(Carry, bitZero == 1);
    flagA := flagA >> 1;
    flagA := flagA | (bitZero << 7);
    m.SetFlagRegister(Zero, flagA == 0);
    m.SetRegister(A, flagA);
    RotateSteps(a, bitZero, flagA);
  }

  /** The Java steps of opcode 0x0F compute `RotateFlags` and `RotatedA`. */
  lemma RotateSteps(a: Char, bitZero: Int, flagA: Int)
    requires bitZero == Widen(a) & 1 && flagA == (Widen(a) >> 1) | (bitZero << 7)
    ensures WithFlag(WithFlag(0, Carry, bitZero == 1), Zero, flagA == 0) == RotateFlags(a)
    ensures ToChar(flagA) == RotatedA(a)
  {
  }

  /** `opcode.execute(this)` for any opcode. */
  method Execute(op: Opcode, m: Z80, read16: int -> Int)
    requires m.Valid()
    modifies m`pc, m.register
    ensures m.Valid()
    ensures m.Snapshot() == Apply(op, old(m.Snapshot()), read16)
  {
    match op
    case Nop => ExecuteNop(m);
    case LoadBCImmediate => ExecuteLoadBCImmediate(m, read16);
    case LoadBCFromA => ExecuteLoadBCFromA(m);
    case RotateRightA => ExecuteRotateRightA(m);
  }
}
