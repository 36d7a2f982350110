/** Properties that relate several handlers, or one handler to a reference
    statement of what it is for: call/return round trips, the pairing of the
    skip instructions, inverses of the bitwise and shift operations, and the
    consequences of writing VF before the operands are re-read.
 */
module HandlerProperties {
  import opened Bits
  import opened Machine
  import opened Handlers

  // ---------------------------------------------------------------------
  // Subroutines
  // ---------------------------------------------------------------------

  /** 2nnn followed by 00EE returns to the instruction after the call with
      the original stack depth; the only other trace is the return address
      left in the (now free) stack slot. */
  lemma CallThenReturn(s: State, addr: Word)
    requires StackInBounds(s) && s.sp < STACK_DEPTH
    ensures Ret(Call(s, addr)) == s.(stack := s.stack[s.sp := s.pc], pc := Wrap16(s.pc as int + 2))
  {
  }

  /** `addrs` called in order, each call made directly from the state the
      previous one left. */
  function CallAll(s: State, addrs: seq<Word>): (r: State)
    ensures StackInBounds(s) ==> StackInBounds(r)
    ensures s.sp as int + |addrs| <= STACK_DEPTH ==> r.sp == s.sp as int + |addrs|
    decreases |addrs|
  {
    if addrs == [] then s else CallAll(Call(s, addrs[0]), addrs[1..])
  }

  /** `n` returns in a row: each pops one entry until the stack is empty,
      and only sp and PC change. */
  function ReturnN(s: State, n: nat): (r: State)
    requires StackInBounds(s)
    ensures StackInBounds(r)
    ensures r.sp as int == if n <= s.sp as int then s.sp as int - n else 0
    ensures r == s.(sp := r.sp, pc := r.pc)
  {
    if n == 0 then s else Ret(ReturnN(s, n - 1))
  }

  /** Nested calls that fit in the stack, unwound by as many returns, come
      back to the instruction after the outermost call with the original
      stack depth, every live return address below it intact, and nothing
      but PC and the freed stack slots changed. */
  lemma {:induction false} NestedCallsReturn(s: State, addrs: seq<Word>)
    requires StackInBounds(s) && s.sp as int + |addrs| <= STACK_DEPTH
    ensures var r := ReturnN(CallAll(s, addrs), |addrs|);
      && r.sp == s.sp
      && (|addrs| > 0 ==> r.pc == Wrap16(s.pc as int + 2))
      && r.stack[..s.sp] == s.stack[..s.sp]
      && r == s.(stack := r.stack, pc := r.pc)
    decreases |addrs|
  {
    if addrs != [] {
      var t := Call(s, addrs[0]);
      var rest := addrs[1..];
      NestedCallsReturn(t, rest);
      var u := ReturnN(CallAll(t, rest), |rest|);
      assert u.stack[s.sp] == t.stack[..t.sp][s.sp] == s.pc;
      assert u.stack[..s.sp] == t.stack[..t.sp][..s.sp];
      assert ReturnN(CallAll(s, addrs), |addrs|) == Ret(u);
    }
  }

  // ---------------------------------------------------------------------
  // Conditional skips
  // ---------------------------------------------------------------------

  /** 3xkk and 4xkk on the same state and operands land exactly two bytes
      apart: the one whose condition holds is the further of the two. */
  lemma SkipPair(s: State, x: RegIndex, kk: Byte)
    ensures s.V[x] == kk ==> SeByte(s, x, kk).pc == Wrap16(SneByte(s, x, kk).pc as int + 2)
    ensures s.V[x] != kk ==> SneByte(s, x, kk).pc == Wrap16(SeByte(s, x, kk).pc as int + 2)
  {
  }

  /** A register always equals itself, so 5xy0 with x = y always skips. */
  lemma SeRegSelfSkips(s: State, x: RegIndex)
    ensures SeReg(s, x, x).pc == Wrap16(s.pc as int + 4)
  {
  }

  /** A loaded value compares equal: 6xkk followed by 3xkk with the same
      byte, and 8xy0 followed by 5xy0, both skip. */
  lemma LoadThenSkip(s: State, x: RegIndex, y: RegIndex, kk: Byte)
    ensures SeByte(LdByte(s, x, kk), x, kk).pc == Wrap16(s.pc as int + 6)
    ensures SeReg(LdReg(s, x, y), x, y).pc == Wrap16(s.pc as int + 6)
  {
  }

  // ---------------------------------------------------------------------
  // Loads and bitwise operations
  // ---------------------------------------------------------------------

  /** 6xkk then 7xkk' leaves (kk + kk') mod 256 in Vx. */
  lemma LoadThenAdd(s: State, x: RegIndex, kk: Byte, kk2: Byte)
    ensures AddByte(LdByte(s, x, kk), x, kk2).V[x] == (kk as int + kk2) % 256
  {
  }

  /** XOR with the same Vy twice restores every register (x != y). */
  lemma XorInvolution(s: State, x: RegIndex, y: RegIndex)
    requires x != y
    ensures Xor(Xor(s, x, y), x, y).V == s.V
  {
    XorTwice(s.V[x], s.V[y]);
  }

  /** Repeating OR or AND with the same Vy changes no register (x != y); a
      register ORed or ANDed with itself keeps its value, and XORed with
      itself becomes 0. */
  lemma LogicIdempotent(s: State, x: RegIndex, y: RegIndex)
    requires x != y
    ensures Or(Or(s, x, y), x, y).V == Or(s, x, y).V
    ensures And(And(s, x, y), x, y).V == And(s, x, y).V
    ensures Or(s, x, x).V == s.V && And(s, x, x).V == s.V
    ensures Xor(s, x, x).V[x] == 0
  {
    OrAndAbsorb(s.V[x], s.V[y]);
    OrAndAbsorb(s.V[x], s.V[x]);
    assert s.V[x := s.V[x]] == s.V;
  }

  // ---------------------------------------------------------------------
  // Flag-setting arithmetic
  // ---------------------------------------------------------------------

  /** The two worked additions: 250 + 10 carries, 1 + 1 does not. */
  lemma AddRegExamples(s: State, x: RegIndex, y: RegIndex)
    requires x != FLAG && y != FLAG && x != y
    ensures s.V[x] == 250 && s.V[y] == 10 ==> AddReg(s, x, y).V[x] == 4 && AddReg(s, x, y).V[FLAG] == 1
    ensures s.V[x] == 1 && s.V[y] == 1 ==> AddReg(s, x, y).V[x] == 2 && AddReg(s, x, y).V[FLAG] == 0
  {
  }

  /** 8xy5 and 8xy7 on the same operands give results that sum to 0 mod
      256. Because both borrow flags use a strict comparison, they are both
      0 when the operands are equal, and exactly one is 1 otherwise. */
  lemma SubSubnComplement(s: State, x: RegIndex, y: RegIndex)
    requires x != FLAG && y != FLAG
    ensures (Sub(s, x, y).V[x] as int + Subn(s, x, y).V[x]) % 256 == 0
    ensures Sub(s, x, y).V[FLAG] as int + Subn(s, x, y).V[FLAG] == Bit(s.V[x] != s.V[y])
    ensures s.V[x] == s.V[y] ==> Sub(s, x, y).V[FLAG] == 0 && Subn(s, x, y).V[FLAG] == 0
  {
  }

  /** 8xy5 writes VF before it re-reads its operands: with y = VF it
      subtracts the new flag, and with x = VF it stores the flag minus Vy. */
  lemma SubFlagOperand(s: State, x: RegIndex, y: RegIndex)
    ensures x != FLAG ==> Sub(s, x, FLAG).V[x] == Wrap8(s.V[x] as int - Bit(s.V[x] > s.V[FLAG]))
    ensures y != FLAG ==> Sub(s, FLAG, y).V[FLAG] == Wrap8(Bit(s.V[FLAG] > s.V[y]) as int - s.V[y])
    ensures Sub(s, FLAG, FLAG).V[FLAG] == 0
  {
  }

  /** 8xy7 writes VF before it re-reads its operands: with y = VF it
      subtracts Vx from the new flag, and with x = VF it stores Vy minus the
      flag. */
  lemma SubnFlagOperand(s: State, x: RegIndex, y: RegIndex)
    ensures x != FLAG ==> Subn(s, x, FLAG).V[x] == Wrap8(Bit(s.V[FLAG] > s.V[x]) as int - s.V[x])
    ensures y != FLAG ==> Subn(s, FLAG, y).V[FLAG] == Wrap8(s.V[y] as int - Bit(s.V[y] > s.V[FLAG]))
    ensures Subn(s, FLAG, FLAG).V[FLAG] == 0
  {
  }

  /** Shifting left then right clears bit 7 of Vx; right then left clears
      bit 0. The second shift always reports a 0 flag, because the first
      shift emptied the bit it looks at. */
  lemma ShiftRoundTrips(s: State, x: RegIndex)
    requires x != FLAG
    ensures Shr(Shl(s, x), x).V[x] == s.V[x] % 128 && Shr(Shl(s, x), x).V[FLAG] == 0
    ensures Shl(Shr(s, x), x).V[x] == s.V[x] - s.V[x] % 2 && Shl(Shr(s, x), x).V[FLAG] == 0
  {
  }

  // ---------------------------------------------------------------------
  // Program counter width
  // ---------------------------------------------------------------------

  /** PC is a plain uint16_t: nothing masks it to 12 bits, a jump keeps all
      16 address bits, and stepping past 0xFFFE wraps to 0. */
  lemma PcIsSixteenBits(s: State, x: RegIndex, kk: Byte)
    requires s.pc == 0xFFFE
    ensures Jp(s, 0xFFFF).pc == 0xFFFF
    ensures Cls(s).pc == 0 && LdByte(s, x, kk).pc == 0
    ensures SeByte(s, x, kk).pc == if s.V[x] == kk then 2 else 0
  {
  }
}
