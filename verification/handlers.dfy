/** The opcode handlers of `Chip8`, one pure state transition each.

    Each handler is modelled exactly as its body is written: it adds its
    own `PC += 2` (or `+= 4` when it skips), every `+=` on PC wraps modulo
    2^16, and the flag-setting handlers write VF before they write (and, in
    most of them, before they re-read) their operands.
 */
module Handlers {
  import opened Bits
  import opened Machine

  /** The program counter `n` bytes further on, as a uint16_t wraps it. */
  ghost predicate AdvancedBy(s: State, r: State, n: int) {
    r.pc == (s.pc as int + n) % 0x1_0000
  }

  /** Every register other than `x` and `y` keeps its value. */
  ghost predicate OthersKept(s: State, r: State, x: RegIndex, y: RegIndex) {
    forall i :: 0 <= i < REGISTER_COUNT && i != x && i != y ==> r.V[i] == s.V[i]
  }

  /** 1 when `c` holds, else 0: the flag value the handlers store in VF. */
  function Bit(c: bool): Byte {
    if c then 1 else 0
  }

  // ---------------------------------------------------------------------
  // Display and control flow
  // ---------------------------------------------------------------------

  /** 00E0 (CLS): blank the display and step over the instruction. */
  function Cls(s: State): (r: State)
    ensures forall i :: 0 <= i < DISPLAY_SIZE ==> r.display[i] == 0
    ensures AdvancedBy(s, r, 2)
    ensures r == s.(display := r.display, pc := r.pc)
  {
    s.(display := seq(DISPLAY_SIZE, _ => 0), pc := Wrap16(s.pc as int + 2))
  }

  /** 00EE (RET): pop the return address and continue after the call.
      With an empty stack the source only prints a diagnostic. */
  function Ret(s: State): (r: State)
    requires StackInBounds(s)
    ensures s.sp > 0 ==>
      && r.sp == s.sp - 1
      && AdvancedBy(s.(pc := s.stack[s.sp - 1]), r, 2)
      && r == s.(sp := r.sp, pc := r.pc)
    ensures s.sp == 0 ==> r == s
    ensures StackInBounds(r)
  {
    if s.sp > 0 then
      var sp := s.sp - 1;
      s.(sp := sp, pc := Wrap16(s.stack[sp] as int + 2))
    else
      s
  }

  /** 1nnn (JP addr): jump; the address is used at its full 16 bits. */
  function Jp(s: State, addr: Word): (r: State)
    ensures r.pc == addr
    ensures r == s.(pc := r.pc)
  {
    s.(pc := addr)
  }

  /** 2nnn (CALL addr): push the current PC and jump. With a full stack the
      source only prints a diagnostic. */
  function Call(s: State, addr: Word): (r: State)
    ensures s.sp < STACK_DEPTH ==>
      && r.sp == s.sp + 1
      && r.stack[s.sp] == s.pc
      && (forall i :: 0 <= i < STACK_DEPTH && i != s.sp ==> r.stack[i] == s.stack[i])
      && r.pc == addr
      && r == s.(stack := r.stack, sp := r.sp, pc := r.pc)
    ensures s.sp >= STACK_DEPTH ==> r == s
    ensures StackInBounds(s) ==> StackInBounds(r)
  {
    if s.sp < STACK_DEPTH then
      s.(stack := s.stack[s.sp := s.pc], sp := s.sp + 1, pc := addr)
    else
      s
  }

  // ---------------------------------------------------------------------
  // Conditional skips: PC moves by 4 when the condition holds, else by 2
  // ---------------------------------------------------------------------

  /** The handlers' skip: `if (cond) PC += 2;` followed by `PC += 2;`. */
  function Skip(s: State, cond: bool): State {
    var pc := if cond then Wrap16(s.pc as int + 2) else s.pc;
    s.(pc := Wrap16(pc as int + 2))
  }

  /** 3xkk (SE Vx, byte). */
  function SeByte(s: State, x: RegIndex, kk: Byte): (r: State)
    ensures AdvancedBy(s, r, if s.V[x] == kk then 4 else 2)
    ensures r == s.(pc := r.pc)
  {
    Skip(s, s.V[x] == kk)
  }

  /** 4xkk (SNE Vx, byte). */
  function SneByte(s: State, x: RegIndex, kk: Byte): (r: State)
    ensures AdvancedBy(s, r, if s.V[x] != kk then 4 else 2)
    ensures r == s.(pc := r.pc)
  {
    Skip(s, s.V[x] != kk)
  }

  /** 5xy0 (SE Vx, Vy). */
  function SeReg(s: State, x: RegIndex, y: RegIndex): (r: State)
    ensures AdvancedBy(s, r, if s.V[x] == s.V[y] then 4 else 2)
    ensures r == s.(pc := r.pc)
  {
    Skip(s, s.V[x] == s.V[y])
  }

  // ---------------------------------------------------------------------
  // Register loads and bitwise operations: only Vx and PC change
  // ---------------------------------------------------------------------

  /** Store `v` in Vx and step over the instruction. */
  function WriteReg(s: State, x: RegIndex, v: Byte): State {
    s.(V := s.V[x := v], pc := Wrap16(s.pc as int + 2))
  }

  /** 6xkk (LD Vx, byte). */
  function LdByte(s: State, x: RegIndex, kk: Byte): (r: State)
    ensures r.V[x] == kk
    ensures OthersKept(s, r, x, x)
    ensures AdvancedBy(s, r, 2)
    ensures r == s.(V := r.V, pc := r.pc)
  {
    WriteReg(s, x, kk)
  }

  /** 7xkk (ADD Vx, byte): the sum, less 256 when it does not fit in a
      byte; VF is not touched (unless it is Vx). */
  function AddByte(s: State, x: RegIndex, kk: Byte): (r: State)
    ensures r.V[x] == if s.V[x] as int + kk < 256 then s.V[x] as int + kk else s.V[x] as int + kk - 256
    ensures OthersKept(s, r, x, x)
    ensures AdvancedBy(s, r, 2)
    ensures r == s.(V := r.V, pc := r.pc)
  {
    WriteReg(s, x, Wrap8(s.V[x] as int + kk))
  }

  /** 8xy0 (LD Vx, Vy). */
  function LdReg(s: State, x: RegIndex, y: RegIndex): (r: State)
    ensures r.V[x] == s.V[y]
    ensures OthersKept(s, r, x, x)
    ensures AdvancedBy(s, r, 2)
    ensures r == s.(V := r.V, pc := r.pc)
  {
    WriteReg(s, x, s.V[y])
  }

  /** 8xy1 (OR Vx, Vy): bit k of the result is set iff it is set in Vx or Vy. */
  function Or(s: State, x: RegIndex, y: RegIndex): (r: State)
    ensures forall k: nat :: k < 8 ==> (BitAt(r.V[x], k) <==> BitAt(s.V[x], k) || BitAt(s.V[y], k))
    ensures OthersKept(s, r, x, x)
    ensures AdvancedBy(s, r, 2)
    ensures r == s.(V := r.V, pc := r.pc)
  {
    WriteReg(s, x, Or8(s.V[x], s.V[y]))
  }

  /** 8xy2 (AND Vx, Vy): bit k of the result is set iff it is set in both. */
  function And(s: State, x: RegIndex, y: RegIndex): (r: State)
    ensures forall k: nat :: k < 8 ==> (BitAt(r.V[x], k) <==> BitAt(s.V[x], k) && BitAt(s.V[y], k))
    ensures OthersKept(s, r, x, x)
    ensures AdvancedBy(s, r, 2)
    ensures r == s.(V := r.V, pc := r.pc)
  {
    WriteReg(s, x, And8(s.V[x], s.V[y]))
  }

  /** 8xy3 (XOR Vx, Vy): bit k of the result is set iff exactly one operand
      has it set. */
  function Xor(s: State, x: RegIndex, y: RegIndex): (r: State)
    ensures forall k: nat :: k < 8 ==> (BitAt(r.V[x], k) <==> BitAt(s.V[x], k) != BitAt(s.V[y], k))
    ensures OthersKept(s, r, x, x)
    ensures AdvancedBy(s, r, 2)
    ensures r == s.(V := r.V, pc := r.pc)
  {
    WriteReg(s, x, Xor8(s.V[x], s.V[y]))
  }

  // ---------------------------------------------------------------------
  // Flag-setting arithmetic: VF is written first, Vx second. Masks and
  // shifts by constants are written as the equivalent unsigned arithmetic:
  // `& 0xFF` is `% 256`, `& 0x01` is `% 2`, `>> 1` is `/ 2`, `>> 7` is
  // `/ 128`, and `<<= 1` on a uint8_t is `2 * v % 256`.
  // ---------------------------------------------------------------------

  /** 8xy4 (ADD Vx, Vy). The sum is computed into a 16-bit local before VF
      is written, so Vx always receives the true sum modulo 256, even when
      x or y is VF; with x = VF the sum overwrites the carry. Otherwise VF
      and Vx together hold the exact 9-bit sum. */
  function AddReg(s: State, x: RegIndex, y: RegIndex): (r: State)
    ensures x != FLAG ==> 256 * r.V[FLAG] as int + r.V[x] == s.V[x] as int + s.V[y]
    ensures x == FLAG ==> r.V[FLAG] == (s.V[FLAG] as int + s.V[y]) % 256
    ensures OthersKept(s, r, x, FLAG)
    ensures AdvancedBy(s, r, 2)
    ensures r == s.(V := r.V, pc := r.pc)
  {
    var sum: Word := s.V[x] as int + s.V[y];
    var flagged := s.V[FLAG := Bit(sum > 255)];
    s.(V := flagged[x := sum % 0x100], pc := Wrap16(s.pc as int + 2))
  }

  /** 8xy5 (SUB Vx, Vy). VF is 1 only when Vx is strictly greater than Vy;
      the subtraction re-reads both operands after VF was written. */
  function Sub(s: State, x: RegIndex, y: RegIndex): (r: State)
    ensures x != FLAG ==> r.V[FLAG] == Bit(s.V[x] > s.V[y])
    ensures x != FLAG && y != FLAG ==>
      r.V[x] == s.V[x] as int - s.V[y] + (if s.V[x] < s.V[y] then 256 else 0)
    ensures OthersKept(s, r, x, FLAG)
    ensures AdvancedBy(s, r, 2)
    ensures r == s.(V := r.V, pc := r.pc)
  {
    var flagged := s.V[FLAG := Bit(s.V[x] > s.V[y])];
    s.(V := flagged[x := Wrap8(flagged[x] as int - flagged[y])], pc := Wrap16(s.pc as int + 2))
  }

  /** 8xy6 (SHR Vx): reads Vx only. VF receives bit 0, then Vx (re-read) is
      halved, so VF and Vx together are the original Vx. */
  function Shr(s: State, x: RegIndex): (r: State)
    ensures x != FLAG ==> r.V[FLAG] <= 1 && 2 * r.V[x] as int + r.V[FLAG] == s.V[x]
    ensures x == FLAG ==> r.V[FLAG] == 0
    ensures OthersKept(s, r, x, FLAG)
    ensures AdvancedBy(s, r, 2)
    ensures r == s.(V := r.V, pc := r.pc)
  {
    var flagged := s.V[FLAG := Bit(s.V[x] % 2 == 1)];
    s.(V := flagged[x := flagged[x] / 2], pc := Wrap16(s.pc as int + 2))
  }

  /** 8xy7 (SUBN Vx, Vy). VF is 1 only when Vy is strictly greater than Vx;
      the subtraction re-reads both operands after VF was written. */
  function Subn(s: State, x: RegIndex, y: RegIndex): (r: State)
    ensures x != FLAG ==> r.V[FLAG] == Bit(s.V[y] > s.V[x])
    ensures x != FLAG && y != FLAG ==>
      r.V[x] == s.V[y] as int - s.V[x] + (if s.V[y] < s.V[x] then 256 else 0)
    ensures OthersKept(s, r, x, FLAG)
    ensures AdvancedBy(s, r, 2)
    ensures r == s.(V := r.V, pc := r.pc)
  {
    var flagged := s.V[FLAG := Bit(s.V[y] > s.V[x])];
    s.(V := flagged[x := Wrap8(flagged[y] as int - flagged[x])], pc := Wrap16(s.pc as int + 2))
  }

  /** 8xyE (SHL Vx): reads Vx only. The top bit is taken into a local, VF
      receives it, then Vx (re-read) is doubled modulo 256, so VF and Vx
      together are twice the original Vx. */
  function Shl(s: State, x: RegIndex): (r: State)
    ensures x != FLAG ==> r.V[FLAG] <= 1 && 256 * r.V[FLAG] as int + r.V[x] == 2 * s.V[x] as int
    ensures x == FLAG ==> r.V[FLAG] == 2 * (s.V[FLAG] as int / 128)
    ensures OthersKept(s, r, x, FLAG)
    ensures AdvancedBy(s, r, 2)
    ensures r == s.(V := r.V, pc := r.pc)
  {
    var msb := (s.V[x] / 128) % 2;
    var flagged := s.V[FLAG := Bit(msb == 1)];
    s.(V := flagged[x := Wrap8(2 * flagged[x] as int)], pc := Wrap16(s.pc as int + 2))
  }
}
