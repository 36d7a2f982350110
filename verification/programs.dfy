/** Sequences of handler invocations.

    The dispatcher never calls a handler, so nothing in the source composes
    them; this module names each implemented handler as a value, so that
    statements about every handler, and about any sequence of them, can be
    made once: the stack pointer stays within the stack, and memory, the
    index register, the timers and the keys are never written.
 */
module Programs {
  import opened Bits
  import opened Machine
  import H = Handlers

  /** One call of an implemented handler, with its operands. */
  datatype Instr =
    | Cls
    | Ret
    | Jp(addr: Word)
    | Call(addr: Word)
    | SeByte(x: RegIndex, kk: Byte)
    | SneByte(x: RegIndex, kk: Byte)
    | SeReg(x: RegIndex, y: RegIndex)
    | LdByte(x: RegIndex, kk: Byte)
    | AddByte(x: RegIndex, kk: Byte)
    | LdReg(x: RegIndex, y: RegIndex)
    | Or(x: RegIndex, y: RegIndex)
    | And(x: RegIndex, y: RegIndex)
    | Xor(x: RegIndex, y: RegIndex)
    | AddReg(x: RegIndex, y: RegIndex)
    | Sub(x: RegIndex, y: RegIndex)
    | Shr(x: RegIndex)
    | Subn(x: RegIndex, y: RegIndex)
    | Shl(x: RegIndex)

  /** The parts of the state no implemented handler writes. */
  ghost predicate UntouchedParts(s: State, r: State) {
    && r.memory == s.memory
    && r.I == s.I
    && r.delayTimer == s.delayTimer
    && r.soundTimer == s.soundTimer
    && r.keys == s.keys
  }

  /** The handler `i` names, applied to `s`. */
  function Apply(s: State, i: Instr): (r: State)
    requires StackInBounds(s)
    ensures StackInBounds(r)
    ensures UntouchedParts(s, r)
    ensures !(i.Cls?) ==> r.display == s.display
    ensures !(i.Call? || i.Ret?) ==> r.sp == s.sp && r.stack == s.stack
  {
    match i
    case Cls => H.Cls(s)
    case Ret => H.Ret(s)
    case Jp(addr) => H.Jp(s, addr)
    case Call(addr) => H.Call(s, addr)
    case SeByte(x, kk) => H.SeByte(s, x, kk)
    case SneByte(x, kk) => H.SneByte(s, x, kk)
    case SeReg(x, y) => H.SeReg(s, x, y)
    case LdByte(x, kk) => H.LdByte(s, x, kk)
    case AddByte(x, kk) => H.AddByte(s, x, kk)
    case LdReg(x, y) => H.LdReg(s, x, y)
    case Or(x, y) => H.Or(s, x, y)
    case And(x, y) => H.And(s, x, y)
    case Xor(x, y) => H.Xor(s, x, y)
    case AddReg(x, y) => H.AddReg(s, x, y)
    case Sub(x, y) => H.Sub(s, x, y)
    case Shr(x) => H.Shr(s, x)
    case Subn(x, y) => H.Subn(s, x, y)
    case Shl(x) => H.Shl(s, x)
  }

  /** The handlers of `prog`, applied one after another. Each step needs the
      stack bound the previous steps kept, so the bound holds after any
      sequence of handlers, and none of them writes memory, I, the timers
      or the keys. */
  function Run(s: State, prog: seq<Instr>): (r: State)
    requires StackInBounds(s)
    ensures StackInBounds(r)
    ensures UntouchedParts(s, r)
    ensures (forall k :: 0 <= k < |prog| ==> !prog[k].Cls?) ==> r.display == s.display
    decreases |prog|
  {
    if prog == [] then s else Run(Apply(s, prog[0]), prog[1..])
  }

  /** A program without calls or returns leaves the stack and its pointer
      exactly as they were. */
  lemma {:induction false} RunWithoutSubroutinesKeepsStack(s: State, prog: seq<Instr>)
    requires StackInBounds(s)
    requires forall k :: 0 <= k < |prog| ==> !prog[k].Call? && !prog[k].Ret?
    ensures Run(s, prog).sp == s.sp && Run(s, prog).stack == s.stack
    decreases |prog|
  {
    if prog != [] {
      RunWithoutSubroutinesKeepsStack(Apply(s, prog[0]), prog[1..]);
    }
  }
}
