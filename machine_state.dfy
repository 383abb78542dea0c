/** The Z80 machine state as a value: what the emulator's fields hold at one
    instant. The class `Cpu.Z80` maps its arrays and fields to this value, and
    every operation that changes the machine is specified as a function from
    one `State` to the next. */
module MachineState {

  import opened JavaTypes
  import opened Registers

  /** `new char[65535]`: addresses 0..0xFFFE. 0xFFFF is not a cell. */
  const MemorySize: nat := 65535
  /** `new byte[23040]`: the 144x160 display, one entry per pixel. */
  const DisplaySize: nat := 23040
  /** The program counter after reset: the cartridge entry point. */
  const StartPc: CharNum := 0x100
  /** The stack pointer after reset: the top of high RAM. */
  const StartSp: CharNum := 0xFFFE
  /** The memory cell `setKeys` writes, the joypad I/O port. */
  const KeysAddress: nat := 0xFF00

  /** An exception the Java code raises and does not catch. */
  datatype Fault = IndexOutOfBounds(index: int)

  datatype Result<T> = Ok(value: T) | Err(fault: Fault)

  datatype Outcome = Pass | Fail(fault: Fault)

  datatype State = State(
    memory: seq<Char>,
    register: seq<Char>,
    pc: CharNum,
    sp: CharNum,
    display: seq<Byte>,
    needRedraw: bool)

  /** The array lengths `reset` allocates. */
  predicate WellFormed(s: State)
  {
    |s.memory| == MemorySize && |s.register| == RegisterCount && |s.display| == DisplaySize
  }

  /** The value of one register. */
  function Reg(s: State, r: Register): Char
    requires WellFormed(s)
  {
    s.register[Index(r)]
  }

  /** The state `reset` establishes. `reset` does not touch the redraw flag,
      so it is carried over. */
  function PowerOn(needRedraw: bool): (s: State)
    ensures WellFormed(s)
    ensures s.pc == 0x100 && s.sp == 0xFFFE && s.needRedraw == needRedraw
    ensures forall r :: Reg(s, r) == 0
    ensures forall i :: 0 <= i < MemorySize ==> s.memory[i] == 0
    ensures forall i :: 0 <= i < DisplaySize ==> s.display[i] == 0
  {
    State(seq(MemorySize, _ => 0), seq(RegisterCount, _ => 0), StartPc, StartSp,
          seq(DisplaySize, _ => 0), needRedraw)
  }

  /** `registerPair`: `(left << 8) | right` over the int promotions of two
      chars. For bytes it is the 16-bit value with `high` as its upper and
      `low` as its lower byte. */
  function PairValue(high: Char, low: Char): (v: Int)
    ensures high <= 0xFF && low <= 0xFF ==> v <= 0xFFFF
    ensures high <= 0xFF && low <= 0xFF ==> ToChar(v >> 8) == high && ToChar(v & 0xFF) == low
  {
    (Widen(high) << 8) | Widen(low)
  }

  /** The byte the pair setter stores in the left (high) register. */
  function HighByte(v: Int): (c: Char)
    ensures c <= 0xFF
    ensures Widen(c) == (v >> 8) & 0xFF
  {
    ToChar((v >> 8) & 0xFF)
  }

  /** The byte the pair setter stores in the right (low) register. */
  function LowByte(v: Int): (c: Char)
    ensures c <= 0xFF
    ensures Widen(c) == v & 0xFF
  {
    ToChar(v & 0xFF)
  }

  /** Splitting a value into bytes and pairing them again keeps its low 16
      bits; pairing two bytes and splitting the result gives them back. */
  lemma PairRoundTrip(v: Int, high: Char, low: Char)
    ensures PairValue(HighByte(v), LowByte(v)) == v & 0xFFFF
    ensures high <= 0xFF && low <= 0xFF ==>
              HighByte(PairValue(high, low)) == high && LowByte(PairValue(high, low)) == low
  {
  }

  /** Memory after the cartridge copy loop: input byte i in cell i as its
      unsigned value, for as many bytes as there are cells; the cells past the
      input keep their contents. */
  function Loaded(memory: seq<Char>, data: seq<Byte>): (r: seq<Char>)
    ensures |r| == |memory|
    ensures forall i :: 0 <= i < |data| && i < |memory| ==> r[i] == UnsignedByte(data[i]) <= 0xFF
    ensures forall i :: |data| <= i < |memory| ==> r[i] == memory[i]
    decreases |data|
  {
    if |data| == 0 || |memory| == 0 then memory
    else [UnsignedByte(data[0])] + Loaded(memory[1..], data[1..])
  }
}
