/** Java's primitive types as the emulator uses them.

    A Java `char` is an unsigned 16-bit value. The emulator uses chars in two
    ways, and the model gives each its natural form:
    - register and memory cells only take part in bitwise operations
      (shifts, masks, `|`), so they are bit patterns, `Char = bv16`;
    - the program counter and the stack pointer only take part in
      arithmetic (`++`, `--`, `+ 1`, `+ 3`), so they are numbers,
      `CharNum`, kept in 0..0xFFFF with the wrap-around written out.
    A Java `int` expression built from chars is a 32-bit pattern, `Int`, and a
    Java `byte` is a signed 8-bit value, `Byte`, held as its bit pattern. */
module JavaTypes {

  type Char = bv16
  type Int = bv32
  type Byte = bv8

  const CharModulus: int := 0x1_0000

  /** A char held as its numeric value. */
  type CharNum = c: int | 0 <= c < CharModulus

  /** The narrowing cast `(char) v` of an int value: its low 16 bits, which
      is `v` modulo 2^16 (Dafny's `%` never yields a negative remainder). */
  function CharOfInt(v: int): (c: CharNum)
    ensures 0 <= v < CharModulus ==> c == v
    ensures exists k :: v == k * CharModulus + c
  {
    var c := v % CharModulus;
    assert v == (v / CharModulus) * CharModulus + c;
    c
  }

  /** `++c` on a char field: wraps from 0xFFFF to 0. */
  function CharInc(c: CharNum): (r: CharNum)
    ensures c < 0xFFFF ==> r == c + 1
    ensures c == 0xFFFF ==> r == 0
  {
    CharOfInt(c + 1)
  }

  /** `--c` on a char field: wraps from 0 to 0xFFFF. */
  function CharDec(c: CharNum): (r: CharNum)
    ensures c > 0 ==> r == c - 1
    ensures c == 0 ==> r == 0xFFFF
  {
    CharOfInt(c - 1)
  }

  /** Binary numeric promotion of a char operand to int: zero-extension. */
  function Widen(c: Char): (v: Int)
    ensures v < 0x1_0000
  {
    c as Int
  }

  /** The narrowing cast `(char) v` of an int bit pattern: its low 16 bits. */
  function ToChar(v: Int): (c: Char)
    ensures Widen(c) == v & 0xFFFF
  {
    (v & 0xFFFF) as Char
  }

  /** Widening a char and casting it back is the identity. */
  lemma NarrowWiden(c: Char)
    ensures ToChar(Widen(c)) == c
  {
  }

  /** `(char) b` of a byte: the byte is sign-extended to int first, so a
      negative byte (bit 7 set) lands in 0xFF80..0xFFFF. */
  function CharOfByte(b: Byte): (c: Char)
    ensures (c & 0xFF) as Byte == b
    ensures b < 0x80 ==> c < 0x80
    ensures b >= 0x80 <==> c >= 0xFF80
  {
    if b & 0x80 != 0 then 0xFF00 | b as Char else b as Char
  }

  /** `(char) (b & 0xFF)` of a byte: the unsigned value of its 8 bits. */
  function UnsignedByte(b: Byte): (c: Char)
    ensures (c & 0xFF) as Byte == b
    ensures c <= 0xFF
  {
    (b as Int & 0xFF) as Char
  }

  lemma IncrementUndoesDecrement(c: CharNum)
    ensures CharInc(CharDec(c)) == c
    ensures CharDec(CharInc(c)) == c
  {
  }

  /** The two byte-to-char conversions agree on non-negative bytes and differ
      exactly in the upper eight bits, which sign extension fills, on
      negative ones. */
  lemma SignExtensionDiffers(b: Byte)
    ensures b < 0x80 ==> CharOfByte(b) == UnsignedByte(b)
    ensures b >= 0x80 ==> CharOfByte(b) == UnsignedByte(b) | 0xFF00
    ensures b >= 0x80 ==> CharOfByte(b) != UnsignedByte(b)
  {
  }
}
