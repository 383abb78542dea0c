/** The four flags of the flag register F and the bit each occupies. */
module Flags {

  import opened JavaTypes

  datatype Flag = Zero | Subtract | HalfCarry | Carry

  /** The bit of F that holds a flag. */
  function Bit(f: Flag): (b: nat)
    ensures 4 <= b <= 7
    ensures f == Zero <==> b == 7
  {
    match f
    case Zero => 7
    case Subtract => 6
    case HalfCarry => 5
    case Carry => 4
  }

  /** The single-bit mask of a flag within F, `1 << bit`. */
  function Mask(f: Flag): (m: Char)
    ensures m & 0xF0 == m && m != 0
    ensures m & (m - 1) == 0
  {
    match f
    case Zero => 0x80
    case Subtract => 0x40
    case HalfCarry => 0x20
    case Carry => 0x10
  }

  /** Each mask is the flag's bit position turned into a single bit. */
  lemma MaskIsBit(f: Flag)
    ensures Mask(f) == 1 << Bit(f)
  {
  }

  /** `setFlagRegister(flag, on)`: sets or clears the flag's bit of F and
      keeps every other bit. */
  function WithFlag(reg: Char, f: Flag, on: bool): (r: Char)
    ensures r & Mask(f) == (if on then Mask(f) else 0)
    ensures r & !Mask(f) == reg & !Mask(f)
  {
    if on then reg | Mask(f) else reg & !Mask(f)
  }

  /** Whether a flag's bit is set in F. */
  predicate IsSet(reg: Char, f: Flag)
  {
    reg & Mask(f) != 0
  }

  /** The four flags occupy four different bits, so setting or clearing one
      flag never alters another. */
  lemma FlagsAreIndependent(reg: Char, f: Flag, g: Flag, on: bool)
    requires f != g
    ensures Bit(f) != Bit(g)
    ensures IsSet(WithFlag(reg, f, on), g) <==> IsSet(reg, g)
  {
    assert Mask(g) & !Mask(f) == Mask(g);
  }

  /** The lower nibble and the upper byte of F hold no flag, so setting or
      clearing a flag keeps them. */
  lemma FlagsLeaveOtherBits(reg: Char, f: Flag, on: bool)
    ensures WithFlag(reg, f, on) & 0xFF0F == reg & 0xFF0F
  {
    assert 0xFF0F & !Mask(f) == 0xFF0F;
  }

  /** Zero is the top bit of a byte: for an 8-bit F, shifting it right by the
      Zero bit leaves just that bit, 0 or 1. */
  lemma ZeroIsTopBit(reg: Char)
    requires reg <= 0xFF
    ensures Widen(reg) >> Bit(Zero) <= 1
    ensures (Widen(reg) >> Bit(Zero) == 1) <==> IsSet(reg, Zero)
  {
  }
}
