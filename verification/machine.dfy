/** The register-level state of the CHIP-8 interpreter and its reset.

    Field widths follow the C++ class: registers, timers, the stack pointer,
    memory, display and key cells are bytes (uint8_t), and the program
    counter, the index register and the return addresses are 16-bit words
    (uint16_t).
    Every fixed-size array is a subset type of `seq`, so its length is a
    fact of the type rather than a precondition.
 */
module Machine {
  import opened Bits

  const REGISTER_COUNT: nat := 16
  const MEMORY_SIZE: nat := 4096
  const DISPLAY_WIDTH: nat := 64
  const DISPLAY_HEIGHT: nat := 32
  const DISPLAY_SIZE: nat := DISPLAY_WIDTH * DISPLAY_HEIGHT
  const STACK_DEPTH: nat := 16
  const KEY_COUNT: nat := 16

  /** Programs are loaded, and execution starts, at this address. */
  const PROGRAM_START: Word := 0x200

  /** VF, the register that arithmetic and shift instructions use as a flag. */
  const FLAG: nat := 15

  type Registers = v: seq<Byte> | |v| == REGISTER_COUNT witness seq(16, _ => 0)
  type Memory = m: seq<Byte> | |m| == MEMORY_SIZE witness seq(4096, _ => 0)
  type Display = d: seq<Byte> | |d| == DISPLAY_SIZE witness seq(2048, _ => 0)
  type Stack = k: seq<Word> | |k| == STACK_DEPTH witness seq(16, _ => 0)
  type Keys = k: seq<Byte> | |k| == KEY_COUNT witness seq(16, _ => 0)

  /** The index of one of the sixteen V registers. */
  type RegIndex = x: int | 0 <= x < REGISTER_COUNT

  datatype State = State(
    V: Registers,
    I: Word,
    pc: Word,
    memory: Memory,
    display: Display,
    stack: Stack,
    sp: Byte,
    delayTimer: Byte,
    soundTimer: Byte,
    keys: Keys)

  /** The stack pointer counts the occupied stack slots, so it never exceeds
      the stack's capacity; a state outside this bound would make a return
      read past the end of the stack. */
  predicate StackInBounds(s: State) {
    s.sp as int <= STACK_DEPTH
  }

  /** The layout of `class Chip8`: sixteen byte registers, 4 KiB of byte
      memory, a 64 x 32 display of byte cells, sixteen 16-bit stack slots, a
      byte stack pointer, byte timers and sixteen key cells; I and PC are
      16-bit. */
  lemma StateLayout(s: State)
    ensures |s.V| == 16 && |s.memory| == 4096 && |s.display| == 64 * 32
    ensures |s.stack| == 16 && |s.keys| == 16
    ensures forall i :: 0 <= i < |s.V| ==> 0 <= s.V[i] < 256
    ensures forall i :: 0 <= i < |s.stack| ==> 0 <= s.stack[i] < 0x1_0000
    ensures s.sp < 256 && s.delayTimer < 256 && s.soundTimer < 256
    ensures s.pc < 0x1_0000 && s.I < 0x1_0000
  {
  }

  /** `Chip8::initialize`: reset every register, the stack, the timers, the
      display and the keys; memory is left as it was. */
  function Initialize(s: State): (r: State)
    ensures r.pc == PROGRAM_START && r.I == 0 && r.sp == 0
    ensures forall i :: 0 <= i < REGISTER_COUNT ==> r.V[i] == 0
    ensures forall i :: 0 <= i < DISPLAY_SIZE ==> r.display[i] == 0
    ensures forall i :: 0 <= i < STACK_DEPTH ==> r.stack[i] == 0
    ensures forall i :: 0 <= i < KEY_COUNT ==> r.keys[i] == 0
    ensures r.delayTimer == 0 && r.soundTimer == 0
    ensures r.memory == s.memory
    ensures StackInBounds(r)
  {
    s.(pc := PROGRAM_START,
       I := 0,
       sp := 0,
       V := seq(REGISTER_COUNT, _ => 0),
       display := seq(DISPLAY_SIZE, _ => 0),
       stack := seq(STACK_DEPTH, _ => 0),
       delayTimer := 0,
       soundTimer := 0,
       keys := seq(KEY_COUNT, _ => 0))
  }

  /** Resetting twice is resetting once, and the reset state depends on the
      previous state only through its memory. */
  lemma InitializeIdempotent(s: State, t: State)
    requires s.memory == t.memory
    ensures Initialize(Initialize(s)) == Initialize(s)
    ensures Initialize(s) == Initialize(t)
  {
  }
}
