/** The fetch-execute step of the Z80: `getOpcode` picks the opcode for the
    byte at pc and `run` executes it and reports its cycle count. `Step` is
    the pure form of one `run`; `Run` is proved against it. */
module Interpreter {

  import opened JavaTypes
  import opened MachineState
  import opened Cpu
  import opened Opcodes

  /** `getOpcode`'s switch on one memory cell. Only 0x00 has a case; every
      other value takes the default branch, which reports the opcode as
      unprocessed and executes it as a NOP. `recognised` is false exactly
      where that report is printed. */
  function Decode(cell: Char): (d: (Opcode, bool))
    ensures d.0 == Nop
    ensures d.1 <==> cell == 0x00
  {
    if cell == 0x00 then (Nop, true) else (Nop, false)
  }

  /** The opcode `getOpcode` returns for the machine's current pc; reading
      `memory[pc]` at pc = 0xFFFF, one past the last cell, raises an index
      exception. */
  function FetchOpcode(m: Z80): (r: Result<Opcode>)
    reads m, m.memory
    requires m.Valid()
    ensures r.Ok? <==> m.pc < MemorySize
    ensures r.Ok? ==> r.value == Nop
    ensures r.Err? ==> r.fault == IndexOutOfBounds(m.pc)
  {
    match m.ReadMemory(m.pc)
    case Ok(cell) => Ok(Decode(cell).0)
    case Err(fault) => Err(fault)
  }

  /** One `run` on a machine value: the new value and the cycle count, or
      the exception raised by the fetch. */
  function Step(s: State, read16: int -> Int): (r: Result<(State, nat)>)
    requires WellFormed(s)
    ensures r.Ok? ==> WellFormed(r.value.0)
  {
    if s.pc < |s.memory| then
      var op := Decode(s.memory[s.pc]).0;
      Ok((Apply(op, s, read16), CycleCount(op)))
    else
      Err(IndexOutOfBounds(s.pc))
  }

  /** `n` successive calls of `run`, adding up their cycle counts; the first
      exception ends the sequence. */
  function Steps(s: State, n: nat, read16: int -> Int): (r: Result<(State, nat)>)
    requires WellFormed(s)
    ensures r.Ok? ==> WellFormed(r.value.0)
    decreases n
  {
    if n == 0 then Ok((s, 0))
    else
      match Step(s, read16)
      case Err(fault) => Err(fault)
      case Ok(next) =>
        match Steps(next.0, n - 1, read16)
        case Err(fault) => Err(fault)
        case Ok(last) => Ok((last.0, next.1 + last.1))
  }

  /** `run`: fetch, execute, return the cycle count. On an exception from
      the fetch nothing has changed. */
  method Run(m: Z80, read16: int -> Int) returns (cycles: Result<nat>)
    requires m.Valid()
    modifies m`pc, m.register
    ensures m.Valid()
    ensures match Step(old(m.Snapshot()), read16)
      case Ok(next) => cycles == Ok(next.1) && m.Snapshot() == next.0
      case Err(fault) => cycles == Err(fault) && m.Snapshot() == old(m.Snapshot())
  {
    var opcode := FetchOpcode(m);
    if opcode.Err? {
      return Err(opcode.fault);
    }
    Execute(opcode.value, m, read16);
    cycles := Ok(CycleCount(opcode.value));
  }

  /** Every cell decodes as a NOP, so one `run` below the end of memory
      advances pc by one and takes 4 cycles, and at pc = 0xFFFF it faults. */
  lemma StepIsNop(s: State, read16: int -> Int)
    requires WellFormed(s)
    ensures s.pc < MemorySize ==> Step(s, read16) == Ok((s.(pc := s.pc + 1), 4))
    ensures s.pc == MemorySize ==> Step(s, read16) == Err(IndexOutOfBounds(MemorySize))
  {
  }

  /** From any pc, `n` runs that stay inside memory move pc forward by `n`,
      change nothing else and take 4n cycles. */
  lemma {:induction false} StepsAdvance(s: State, n: nat, read16: int -> Int)
    requires WellFormed(s) && s.pc + n <= MemorySize
    ensures Steps(s, n, read16) == Ok((s.(pc := s.pc + n), 4 * n))
    decreases n
  {
    if n > 0 {
      StepIsNop(s, read16);
      var next := s.(pc := s.pc + 1);
      StepsAdvance(next, n - 1, read16);
    }
  }

  /** Whatever the memory holds, a machine whose pc is inside memory runs to
      the last cell and then faults on the fetch at 0xFFFF: after
      `MemorySize - pc` successful runs, the next one raises the exception. */
  lemma RunsOffTheEnd(s: State, read16: int -> Int)
    requires WellFormed(s) && s.pc <= MemorySize
    ensures Steps(s, MemorySize - s.pc, read16).Ok?
    ensures Steps(s, MemorySize - s.pc + 1, read16) == Err(IndexOutOfBounds(MemorySize))
  {
    StepsAdvance(s, MemorySize - s.pc, read16);
    StepsFault(s, MemorySize - s.pc, read16);
  }

  /** Running one step past `n` successful ones faults exactly when the
      state reached after `n` steps faults. */
  lemma {:induction false} StepsFault(s: State, n: nat, read16: int -> Int)
    requires WellFormed(s) && s.pc + n == MemorySize
    ensures Steps(s, n + 1, read16) == Err(IndexOutOfBounds(MemorySize))
    decreases n
  {
    StepIsNop(s, read16);
    if n > 0 {
      StepsFault(s.(pc := s.pc + 1), n - 1, read16);
    }
  }
}
