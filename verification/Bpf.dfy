/** Classic BPF, cut down to the instructions the seccomp filter uses, over the two
    fields of the kernel's seccomp_data that it reads. */
module Bpf {

  type Word = x: int | 0 <= x < 0x1_0000_0000  // 32 bits, unsigned

  type Skip = x: int | 0 <= x < 256  // a jump distance is one unsigned byte

  datatype Cond = JumpEqual | JumpGreaterOrEqual

  datatype Instruction =
    | LoadAbsolute(off: nat, size: nat)
    | JumpIf(cond: Cond, val: Word, skipTrue: Skip, skipFalse: Skip)
    | RetConstant(action: Word)

  type Program = seq<Instruction>

  datatype SeccompData = SeccompData(nr: Word, arch: Word)

  /** Running off the end of a program, or a load the layout does not cover, is a fault. */
  datatype Outcome = Halt(action: Word) | Fault

  predicate Holds(cond: Cond, acc: Word, val: Word) {
    match cond
    case JumpEqual => acc == val
    case JumpGreaterOrEqual => acc >= val
  }

  /** Executes `prog` from instruction `pc` with accumulator `acc`. A skip is relative to
      the instruction after the jump, so control only ever moves forward. */
  function Exec(prog: Program, pc: nat, acc: Word, d: SeccompData): Outcome
    decreases |prog| - pc
  {
    if pc >= |prog| then Fault else
      match prog[pc]
      case LoadAbsolute(off, size) =>
        if size == 4 && off == 0 then Exec(prog, pc + 1, d.nr, d)
        else if size == 4 && off == 4 then Exec(prog, pc + 1, d.arch, d)
        else Fault
      case JumpIf(cond, val, skipTrue, skipFalse) =>
        Exec(prog, pc + 1 + (if Holds(cond, acc, val) then skipTrue else skipFalse), acc, d)
      case RetConstant(action) => Halt(action)
  }

  /** The kernel starts every filter at instruction 0 with a zeroed accumulator. */
  function Run(prog: Program, d: SeccompData): Outcome {
    Exec(prog, 0, 0, d)
  }
}
