# CHIP-8 interpreter core: a Dafny model

This project models the register-level core of a small C++ CHIP-8
interpreter (`class Chip8`). It covers the machine state, the reset
(`initialize`), one fetch cycle (`emulateCycle` with its dispatcher
`executeOpcode`) and the eighteen opcode handlers that have bodies:
00E0, 00EE, 1nnn, 2nnn, 3xkk, 4xkk, 5xy0, 6xkk, 7xkk, 8xy0 to 8xy7, and
8xyE. Each handler is a pure function from state to state, modelled exactly
as its C++ body is written. The project proves what each one computes, what
it leaves alone, and how the handlers relate to each other.

Modules:

- `Bits`: uint8_t and uint16_t as bounded integers, with explicit
  wrap-around. Defines the bitwise operators `|`, `&` and `^` bit by bit.
- `Machine`: the `State` record. Its field widths and array sizes are those
  of `class Chip8`. Also holds the stack-bound invariant and `Initialize`.
- `Cycle`: the big-endian fetch, the dispatcher and one cycle.
- `Handlers`: one function per implemented opcode handler.
- `HandlerProperties`: lemmas that relate handlers. They cover call/return
  round trips, skip pairs, inverses, and the effects of writing the flag
  first.
- `Programs`: each handler as a value (`Instr`), and `Run`, which applies
  any sequence of them. It proves the stack bound and which parts of the
  state are never written.

Modelling conventions:

- Every `PC += 2` wraps modulo 2^16. Nothing masks PC or a jump target to 12
  bits.
- Byte arithmetic wraps modulo 256. A subtraction that goes negative wraps
  to the unsigned result, as assigning a negative `int` to a `uint8_t` does.
- Shifts and masks by constants are written as the matching unsigned
  arithmetic: `& 0xFF` is `% 256`, `>> 1` is `/ 2`, and so on.
- The handlers add their own `PC += 2` on top of the fetch's. They are not
  composed with `emulateCycle`, because the dispatcher never calls them.
- The stack pointer is a byte. `StackInBounds` (sp <= 16) is the invariant
  that keeps 00EE's `stack[sp]` read inside the array. Only `Ret` needs it,
  and every handler preserves it.

Where the code and the conventional CHIP-8 definition differ, the model
follows the code:

- 8xy5 and 8xy7 set VF with a strict `>`, so equal operands give VF = 0.
- VF is written first. In 8xy4 the sum is already held in a local, so with
  x = 15 the sum overwrites the carry (the destination wins, not the flag).
  8xy5, 8xy7, 8xy6 and 8xyE re-read their operands after writing VF, so an
  operand that is VF sees the new flag.
- 8xy6 and 8xyE take only Vx and never read Vy.
- The XOR body is defined under the name `opcode_8xy2`, which duplicates the
  AND handler's name. The header declares it as `opcode_8xy3`. It is
  modelled as the XOR handler 8xy3, separate from AND.
- The dispatcher routes nothing. Class 0x0 has an empty case, and every
  other class only prints "Unknown opcode". So a cycle's only effect on the
  state is PC + 2, and the diagnostic is modelled as a `Report`.

## Model

| member | source | states |
|---|---|---|
| `Machine.StateLayout` | src/chip8.hpp:28-43 | The layout is fixed by the `State` datatype and its subset types; the lemma records it: sixteen byte registers, 4096 bytes of memory, 64·32 display cells, a sixteen-entry stack of 16-bit addresses, byte sp, byte timers, sixteen key cells, and 16-bit I and PC. |
| `Machine.Initialize` | src/chip8.cpp:10-21 | After reset: PC = 0x200, I = 0, sp = 0, and every register, display cell, stack slot, key and both timers are 0. Memory is unchanged and the stack bound holds. |
| `Machine.InitializeIdempotent` | src/chip8.cpp:10-21 | Resetting twice is resetting once. The reset state depends on the previous state only through memory. |
| `Bits.Bitwise` | src/chip8.cpp:128-143 | Bit k of the result is the operator's truth table applied to bit k of each operand, and the result fits in the given width. |
| `Bits.Or8` | src/chip8.cpp:129 | uint8_t bitwise OR: a result bit is set iff it is set in either operand. |
| `Bits.And8` | src/chip8.cpp:135 | uint8_t bitwise AND: a result bit is set iff it is set in both operands. |
| `Bits.Xor8` | src/chip8.cpp:141 | uint8_t bitwise XOR: a result bit is set iff it is set in exactly one operand. |
| `Bits.XorTwice` | src/chip8.cpp:141 | XOR with the same byte twice gives back the original byte. |
| `Bits.OrAndAbsorb` | src/chip8.cpp:128-143 | A repeated OR or AND with the same operand changes nothing. A byte ORed or ANDed with itself is itself. A byte XORed with itself is 0. |
| `Bits.OrDisjoint` | src/chip8.cpp:34 | a shifted left by n bits, ORed with b < 2^n, equals a·2^n + b. This is why the fetch's OR is an addition. |
| `Cycle.Fetch` | src/chip8.cpp:34 | The word's high byte (word / 256) is memory[PC] and its low byte (word mod 256) is memory[PC+1]. |
| `Cycle.ExecuteOpcode` | src/chip8.cpp:41-50 | Dispatch is silent exactly for class-0 opcodes (opcode < 0x1000). Every other opcode yields an unknown-opcode report that carries the opcode. |
| `Cycle.EmulateCycle` | src/chip8.cpp:32-39 | The opcode is memory[PC]·256 + memory[PC+1] and the new PC is PC + 2. Nothing else in the state changes. The report is silent iff memory[PC] < 0x10. |
| `Cycle.FirstCycleAfterReset` | src/chip8.cpp:10-39 | The first cycle after a reset fetches the word at 0x200 and leaves the reset state with PC = 0x202. |
| `Handlers.Cls` | src/chip8.cpp:52-56 | 00E0 makes every display cell 0 and advances PC by 2 (mod 2^16). Nothing else changes. |
| `Handlers.Ret` | src/chip8.cpp:58-67 | 00EE with sp > 0 sets sp to sp − 1 and PC to stack[sp−1] + 2 (mod 2^16). Nothing else changes. With sp = 0 the state is unchanged. The stack bound holds afterwards. |
| `Handlers.Jp` | src/chip8.cpp:69-72 | 1nnn sets PC to the full 16-bit address. Nothing else changes. |
| `Handlers.Call` | src/chip8.cpp:74-83 | 2nnn with sp < 16 stores PC in stack[sp], increments sp and jumps. Every other stack slot and the rest of the state are unchanged. With sp ≥ 16 the state is unchanged. The stack bound is preserved. |
| `Handlers.SeByte` | src/chip8.cpp:85-91 | 3xkk changes only PC: +4 when Vx = kk, otherwise +2 (mod 2^16). |
| `Handlers.SneByte` | src/chip8.cpp:93-99 | 4xkk changes only PC: +4 when Vx ≠ kk, otherwise +2 (mod 2^16). |
| `Handlers.SeReg` | src/chip8.cpp:101-107 | 5xy0 changes only PC: +4 when Vx = Vy, otherwise +2 (mod 2^16). |
| `Handlers.LdByte` | src/chip8.cpp:109-113 | 6xkk sets Vx to kk. Every other register, VF included, is unchanged. PC advances by 2 and nothing else changes. |
| `Handlers.AddByte` | src/chip8.cpp:115-119 | 7xkk sets Vx to Vx + kk, less 256 when the sum does not fit. VF is untouched unless x = 15. PC advances by 2 and nothing else changes. |
| `Handlers.LdReg` | src/chip8.cpp:121-125 | 8xy0 sets Vx to Vy. The other registers are unchanged. PC advances by 2. |
| `Handlers.Or` | src/chip8.cpp:127-131 | 8xy1: each bit of the new Vx is the OR of the operand bits. The other registers are unchanged. PC advances by 2. |
| `Handlers.And` | src/chip8.cpp:133-137 | 8xy2: each bit of the new Vx is the AND of the operand bits. The other registers are unchanged. PC advances by 2. |
| `Handlers.Xor` | src/chip8.cpp:139-143 | 8xy3 (declared in src/chip8.hpp:86-87): each bit of the new Vx is the XOR of the operand bits. The other registers are unchanged. PC advances by 2. |
| `Handlers.AddReg` | src/chip8.cpp:145-151 | 8xy4 with x ≠ 15: 256·VF + Vx is the exact sum of the old Vx and Vy, so VF is the carry. With x = 15, VF ends as the sum mod 256. Only Vx and VF change, and PC advances by 2. |
| `Handlers.Sub` | src/chip8.cpp:153-158 | 8xy5 with x ≠ 15 (y = 15 included): VF = [Vx > Vy] (strict), from the operands before the flag write. With x, y ≠ 15: Vx = Vx − Vy, plus 256 on borrow. Only Vx and VF change, and PC advances by 2. |
| `Handlers.Shr` | src/chip8.cpp:160-165 | 8xy6 with x ≠ 15: VF ≤ 1 and 2·Vx' + VF = Vx, so VF is the shifted-out bit and Vx' is the rest. With x = 15 VF ends as 0. Vy is never read. PC advances by 2. |
| `Handlers.Subn` | src/chip8.cpp:167-172 | 8xy7 with x ≠ 15 (y = 15 included): VF = [Vy > Vx] (strict), from the operands before the flag write. With x, y ≠ 15: Vx = Vy − Vx, plus 256 on borrow. Only Vx and VF change, and PC advances by 2. |
| `Handlers.Shl` | src/chip8.cpp:174-180 | 8xyE with x ≠ 15: VF ≤ 1 and 256·VF + Vx' = 2·Vx, so VF is the shifted-out top bit. With x = 15 VF ends as 2·(old top bit). Vy is never read. PC advances by 2. |
| `HandlerProperties.CallThenReturn` | src/chip8.cpp:59-83 | 2nnn then 00EE from PC = p with sp < 16 gives exactly the original state with PC = p + 2. The return address stays behind in the freed slot. |
| `HandlerProperties.CallAll` | src/chip8.cpp:74-83 | Calls that fit in the stack raise sp by one each. A sequence of calls preserves the stack bound. |
| `HandlerProperties.ReturnN` | src/chip8.cpp:58-67 | n returns leave sp at max(sp − n, 0) and keep the stack bound. Only sp and PC change. |
| `HandlerProperties.NestedCallsReturn` | src/chip8.cpp:59-83 | n nested calls that fit, then n returns, restore sp and the live return addresses. PC ends one instruction past the outermost call, and only PC and freed stack slots differ. |
| `HandlerProperties.SkipPair` | src/chip8.cpp:85-99 | On the same state and operands, 3xkk and 4xkk end exactly 2 bytes apart (mod 2^16). The one whose condition holds is ahead. |
| `HandlerProperties.SeRegSelfSkips` | src/chip8.cpp:101-107 | 5xy0 with x = y always skips (PC + 4). |
| `HandlerProperties.LoadThenSkip` | src/chip8.cpp:85-125 | 6xkk followed by 3xkk with the same byte skips. So does 8xy0 followed by 5xy0. |
| `HandlerProperties.LoadThenAdd` | src/chip8.cpp:109-119 | 6xkk then 7xkk' leaves (kk + kk') mod 256 in Vx. |
| `HandlerProperties.XorInvolution` | src/chip8.cpp:139-143 | Applying 8xy3 twice with x ≠ y restores every register. |
| `HandlerProperties.LogicIdempotent` | src/chip8.cpp:127-143 | Repeating 8xy1 or 8xy2 changes no register. With x = y, OR and AND keep Vx and XOR clears it. |
| `HandlerProperties.AddRegExamples` | src/chip8.cpp:145-151 | 250 + 10 gives Vx = 4 and VF = 1. 1 + 1 gives Vx = 2 and VF = 0. |
| `HandlerProperties.SubSubnComplement` | src/chip8.cpp:153-172 | For x, y ≠ 15, the results of 8xy5 and 8xy7 sum to 0 mod 256. Their flags sum to [Vx ≠ Vy], so with equal operands both flags are 0. |
| `HandlerProperties.SubFlagOperand` | src/chip8.cpp:153-158 | 8xy5 with y = 15 subtracts the new flag. With x = 15 it stores the flag minus Vy. With x = y = 15 it stores 0. |
| `HandlerProperties.SubnFlagOperand` | src/chip8.cpp:167-172 | 8xy7 with y = 15 stores the new flag minus Vx. With x = 15 it stores Vy minus the flag. With x = y = 15 it stores 0. |
| `HandlerProperties.ShiftRoundTrips` | src/chip8.cpp:160-180 | For x ≠ 15: SHL then SHR gives Vx mod 128, and SHR then SHL clears bit 0. The second shift's flag is 0. |
| `HandlerProperties.PcIsSixteenBits` | src/chip8.hpp:29-30 | PC is a full uint16_t. A jump keeps all 16 bits, and PC + 2 or + 4 from 0xFFFE wraps past 0. |
| `Programs.Apply` | src/chip8.cpp:52-180 | Every implemented handler preserves the stack bound. None writes memory, I, the timers or the keys. Only 00E0 writes the display, and only 00EE and 2nnn write sp or the stack. |
| `Programs.Run` | src/chip8.cpp:52-180 | Any sequence of implemented handlers keeps sp ≤ 16 and never writes memory, I, the timers or the keys. Without a 00E0 the display is unchanged. |
| `Programs.RunWithoutSubroutinesKeepsStack` | src/chip8.cpp:52-180 | A sequence with no 2nnn or 00EE leaves sp and the whole stack unchanged. |

## Left out

- `loadROM` (src/chip8.cpp:23-30): file I/O through `std::ifstream`.
- The `std::cerr` diagnostics of 00EE and 2nnn are output only. The model keeps their branches as "state unchanged". The dispatcher's "Unknown opcode" message is kept as a `Report` value.
- The constructor `Chip8()` only calls `initialize`. It leaves memory uninitialised, so `Initialize` takes the previous state and keeps its memory.
- `drawDisplay` and `setKey` have empty bodies, so there is nothing to model.
- 9xy0, Annn, Bnnn, Cxkk, Dxyn, Ex9E, ExA1 and the Fx handlers are declared in the header but have no bodies. Cxkk would also need a random source.
- There is no timer tick, key-wait state, sprite drawing or collision flag in the code. There is also no decode error that stops execution: the unknown-opcode diagnostic is the `Report`.
- Cycle.Fetch: requires PC + 1 < 4096. The C++ `memory[PC + 1]` read is unchecked, and the model does not describe an out-of-bounds read.
- Cycle.EmulateCycle: has the same PC + 1 < 4096 precondition as the fetch, so within it PC + 2 never wraps.
- Handlers.Ret: requires sp ≤ 16. With a larger sp, `stack[sp]` in the C++ reads out of bounds. Every handler and `Initialize` keeps sp ≤ 16.
- Register operands are `RegIndex` values (0 to 15). The C++ takes a `uint8_t` index, and an index of 16 or more is an out-of-bounds access.
