/** One interpreter cycle: `Chip8::emulateCycle` and the dispatcher
    `Chip8::executeOpcode`.

    The dispatcher routes no opcode to any handler: its only case (class
    0x0) is empty and every other class reaches a default branch that
    prints an "Unknown opcode" diagnostic. The diagnostic is modelled as the
    `Report` a cycle yields; the state is never touched by dispatch, so the
    whole effect of a cycle on the state is the fetch's PC advance.
 */
module Cycle {
  import opened Bits
  import opened Machine

  /** What dispatch tells the host about one opcode. */
  datatype Report = Silent | UnknownOpcode(opcode: Word)

  datatype CycleResult = CycleResult(state: State, opcode: Word, report: Report)

  /** The instruction word at `pc`: the byte at `pc` is the high byte and
      the byte after it the low byte (`memory[PC] << 8 | memory[PC + 1]`).
      The source does not bound the second read; the model requires it to
      lie inside memory. */
  function Fetch(memory: Memory, pc: Word): (w: Word)
    requires pc as int + 1 < MEMORY_SIZE
    ensures w / 256 == memory[pc] && w % 256 == memory[pc + 1]
  {
    var high := memory[pc];
    var low := memory[pc + 1];
    OrDisjoint(high, low, 8, 8);
    Bitwise(OrOp, Pow2(8) * high, low, 16)
  }

  /** `executeOpcode`: it reads and writes no state. `opcode & 0xF000` keeps
      the opcode class in the top nibble, and only class 0x0 has a case. */
  function ExecuteOpcode(opcode: Word): (r: Report)
    ensures r == Silent <==> opcode < 0x1000
    ensures r != Silent ==> r == UnknownOpcode(opcode)
  {
    match opcode / 0x1000
    case 0 => Silent
    case _ => UnknownOpcode(opcode)
  }

  /** `emulateCycle`: fetch, step PC past the word, dispatch. */
  function EmulateCycle(s: State): (r: CycleResult)
    requires s.pc as int + 1 < MEMORY_SIZE
    ensures r.opcode == 256 * s.memory[s.pc] as int + s.memory[s.pc + 1]
    ensures r.state.pc == s.pc + 2
    ensures r.state == s.(pc := r.state.pc)
    ensures r.report == Silent <==> s.memory[s.pc] < 0x10
    ensures r.report != Silent ==> r.report == UnknownOpcode(r.opcode)
  {
    var opcode := Fetch(s.memory, s.pc);
    var next := s.(pc := Wrap16(s.pc as int + 2));
    CycleResult(next, opcode, ExecuteOpcode(opcode))
  }

  /** The first cycle after a reset fetches the word at 0x200 and moves on
      to 0x202; nothing else in the reset state changes. */
  lemma FirstCycleAfterReset(s: State)
    ensures var r := EmulateCycle(Initialize(s));
      && r.opcode == 256 * s.memory[0x200] as int + s.memory[0x201]
      && r.state == Initialize(s).(pc := 0x202)
  {
  }
}
