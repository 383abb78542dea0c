/** The eight 8-bit registers of the LR35902 and their slots in the
    machine's register array. B/C, D/E and H/L pair up into 16-bit
    registers (left register = high byte); F is the flag register. */
module Registers {

  datatype Register = A | B | C | D | E | H | L | F

  const RegisterCount: nat := 8

  /** The slot of a register in the register array. */
  function Index(r: Register): (i: nat)
    ensures i < RegisterCount
    ensures r == F <==> i == RegisterCount - 1
  {
    match r
    case A => 0
    case B => 1
    case C => 2
    case D => 3
    case E => 4
    case H => 5
    case L => 6
    case F => 7
  }

  /** The register held in a slot: the inverse of `Index`. */
  function RegisterAt(i: nat): (r: Register)
    requires i < RegisterCount
    ensures Index(r) == i
  {
    [A, B, C, D, E, H, L, F][i]
  }

  /** Distinct registers occupy distinct slots, and every slot holds a
      register, so the eight registers fill the array exactly. */
  lemma IndexIsBijective(r: Register, s: Register, i: nat)
    requires i < RegisterCount
    ensures Index(r) == Index(s) ==> r == s
    ensures RegisterAt(Index(r)) == r
  {
  }
}
