/** The branch conditions of the LR35902 (cc = NZ, Z, NC, C) and their
    evaluation on the flag register. */
module Conditions {

  import opened JavaTypes
  import opened Flags

  datatype Condition = NZ | Z | NC | C

  /** `passesCondition` as written: F, promoted to int, is shifted right by
      the flag's bit and everything that remains is compared with 0 or 1.
      Zero is the top bit of a byte, so for an 8-bit F the Z and NZ tests are
      bit tests; the C and NC tests also see bits 5..7. */
  function PassesAsWritten(reg: Char, cc: Condition): (b: bool)
    ensures cc == NZ ==> (b <==> reg & 0xFF80 == 0)
    ensures cc == Z ==> (b <==> reg & 0xFF80 == 0x0080)
    ensures cc == NC ==> (b <==> reg & 0xFFF0 == 0)
    ensures cc == C ==> (b <==> reg & 0xFFF0 == 0x0010)
  {
    match cc
    case NZ => Widen(reg) >> Bit(Zero) == 0
    case Z => Widen(reg) >> Bit(Zero) == 1
    case NC => Widen(reg) >> Bit(Carry) == 0
    case C => Widen(reg) >> Bit(Carry) == 1
  }

  /** The conditions as documented: NZ if Z is reset, Z if Z is set, NC if C
      is reset, C if C is set. */
  function Passes(reg: Char, cc: Condition): (b: bool)
    ensures cc == NZ ==> (b <==> !IsSet(reg, Zero))
    ensures cc == Z ==> (b <==> IsSet(reg, Zero))
    ensures cc == NC ==> (b <==> !IsSet(reg, Carry))
    ensures cc == C ==> (b <==> IsSet(reg, Carry))
  {
    match cc
    case NZ => (Widen(reg) >> Bit(Zero)) & 1 == 0
    case Z => (Widen(reg) >> Bit(Zero)) & 1 == 1
    case NC => (Widen(reg) >> Bit(Carry)) & 1 == 0
    case C => (Widen(reg) >> Bit(Carry)) & 1 == 1
  }

  /** Each documented condition and its negation are complementary. */
  lemma PassesComplementary(reg: Char)
    ensures Passes(reg, NZ) != Passes(reg, Z)
    ensures Passes(reg, NC) != Passes(reg, C)
  {
  }

  /** For an 8-bit F exactly one of NZ and Z holds as written, Z holds iff
      bit 7 is set, and both agree with the documented conditions. */
  lemma ZeroTestsAsWrittenAreBitTests(reg: Char)
    requires reg <= 0xFF
    ensures PassesAsWritten(reg, NZ) != PassesAsWritten(reg, Z)
    ensures PassesAsWritten(reg, Z) <==> reg & 0x80 != 0
    ensures PassesAsWritten(reg, NZ) == Passes(reg, NZ)
    ensures PassesAsWritten(reg, Z) == Passes(reg, Z)
  {
  }

  /** As written, C holds only when the upper nibble of an 8-bit F is exactly
      0b0001 and NC only when it is 0. With both Zero and Carry set (F = 0x90)
      neither holds, although the Carry flag is set. */
  lemma CarryTestsAsWrittenMisread()
    ensures IsSet(0x90, Carry) && IsSet(0x90, Zero)
    ensures !PassesAsWritten(0x90, C) && !PassesAsWritten(0x90, NC)
    ensures Passes(0x90, C) && !Passes(0x90, NC)
  {
  }

  /** The carry tests as written agree with the documented ones exactly when
      none of bits 5..15 is set. */
  lemma CarryTestsAgreeWhenUpperBitsClear(reg: Char)
    ensures reg & 0xFFE0 == 0 ==> PassesAsWritten(reg, C) == Passes(reg, C)
    ensures reg & 0xFFE0 == 0 ==> PassesAsWritten(reg, NC) == Passes(reg, NC)
    ensures reg & 0xFFE0 != 0 ==> !PassesAsWritten(reg, C) && !PassesAsWritten(reg, NC)
  {
  }
}
