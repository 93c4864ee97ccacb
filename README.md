# CHIP-8 interpreter: machine state, reset and fetch/decode

This project models the beginning of a CHIP-8 interpreter written in C. It covers
the machine state that the interpreter keeps in global variables, the reset routine
`init_chip8`, and the fetch and operand-decode half of the instruction cycle `cycle`.
The execute stage of `cycle` is still an empty TODO in the C code, so it is not modelled.

- The state is the class `Chip8.Machine`. It holds the 4096-byte `memory`, the sixteen
  8-bit registers `v`, the 16-bit index `I` and program counter `PC`, the two 8-bit
  timers, the sixteen-entry `stack` of 16-bit return addresses, the 8-bit `SP`, and
  the last fetched `opcode`. The C arrays are Dafny `array`s with their fixed lengths.
  `uint8_t` and `uint16_t` are the subset types `Uint8` (0..255) and `Uint16` (0..65535).
- `Machine.Init` is `init_chip8`. It zeroes memory, registers, stack, timers, `I`, `SP`
  and `opcode`, and puts `PC` at 0x200.
- `Machine.Cycle` is `cycle`. It reads the big-endian opcode at `PC`, advances `PC` by
  two with 16-bit wrap-around, and splits the opcode into `nnn`, `n`, `kk`, `x` and `y`.
  The C code keeps those fields in locals that nothing reads yet. `Cycle` returns them
  so that the decode can be stated.
- C's `|` and `&` are written out bit by bit in module `Bitwise`, and `<<` and `>>` as
  k doublings and k halvings. `FetchOpcode` and `Decode` use them exactly as the C
  expressions do. Their contracts and the lemmas beside them state what the masks and
  shifts compute in arithmetic terms. An assignment to a narrower C
  integer type is modelled as an explicit `% 0x100` or `% 0x1_0000`.
- `InitThenCycle` is the program's `main`: a reset followed by one cycle.

The code does not wrap memory addresses: `memory[PC + 1]` is read unchecked, so
`Cycle` requires `PC + 1 < MEMSIZE`. Its reset loads no font table.

## Model

| member | source | states |
|---|---|---|
| `Chip8.Machine.constructor` | src/chip8.h:6-22 | memory has exactly MEMSIZE = 4096 bytes, there are 16 registers `v` and 16 `stack` slots, and `memory` and `v` are distinct buffers; every scalar and element is range-limited by its C width (`Uint8`, `Uint16`) |
| `Chip8.Machine.Init` | src/chip8.c:11-26 | afterwards every memory byte, every register, every stack entry, `I`, both timers, `SP` and `opcode` are 0, and `PC` is 0x200 |
| `Chip8.Machine.Cycle` | src/chip8.c:32-48 | keeps the buffers' sizes; `opcode` becomes `memory[old PC] * 256 + memory[old PC + 1]`; `PC` becomes `(old PC + 2) mod 65536`, which is `old PC + 2` because the read needs `PC + 1 < 4096`; the returned fields are `Decode(opcode)`; memory, registers, `I`, timers, stack and `SP` are unchanged |
| `Chip8.InitThenCycle` | src/chip8.c:50-54 | a reset followed by one cycle fetches opcode 0 from the zeroed memory, decodes all-zero fields, and leaves `PC` at 0x202 |
| `Chip8.FetchOpcode` | src/chip8.c:34 | `memory[PC] << 8` OR-ed with `memory[PC + 1]`, stored in 16 bits, equals `hi * 256 + lo`; its high byte is the byte at `PC` and its low byte the byte at `PC + 1` |
| `Chip8.Decode` | src/chip8.c:39-44 | the masks and shifts select hex digits: `nnn` is the opcode mod 4096, `n` mod 16, `kk` mod 256, `x` the second nibble, `y` the third nibble |
| `Chip8.DecodeReconstructs` | src/chip8.c:39-44 | `nnn < 4096`, `n`, `x`, `y < 16`, `kk < 256`; `kk == y * 16 + n`; `nnn == x * 256 + kk`; `opcode == (opcode / 4096) * 4096 + x * 256 + kk` |
| `Chip8.DecodeFetched` | src/chip8.c:34-44 | decoding the opcode fetched from bytes `hi`, `lo` gives `x == hi mod 16`, `kk == lo`, `y == lo / 16`, `n == lo mod 16` and `nnn == (hi mod 16) * 256 + lo` |
| `Bitwise.OrShiftedDisjoint` | src/chip8.c:34 | OR-ing a value below 2^k into a value shifted left by k is addition, so the two fetched bytes do not overlap |
| `Bitwise.ShiftLeftIsMul` | src/chip8.c:34 | `a << k` is `a * 2^k` |
| `Bitwise.AndLowMask` | src/chip8.c:39-41 | masking with `2^k - 1` (0x0FFF, 0x000F, 0x00FF) keeps the k low bits, `a % 2^k` |
| `Bitwise.AndShiftedMask` | src/chip8.c:43-44 | masking with `m << k` (0x0F00, 0x00F0) is masking `a >> k` with `m` and shifting back |
| `Bitwise.ShiftRightOfShiftLeft` | src/chip8.c:43-44 | shifting left by k and right by k returns the value, so the masked nibble comes back down intact |
| `Bitwise.ShiftRightIsDiv` | src/chip8.c:43-44 | `a >> k` is `a / 2^k` |

## Left out

- The execute stage: every CHIP-8 instruction's semantics, flags, drawing, BCD, key wait and stack push/pop. The C code has only a TODO there, so a cycle changes nothing beyond `opcode` and `PC`.
- Font table, display buffer, key input, timer decrementing, random numbers and ROM loading. None of them exist in this code.
- Address wrap-around on the fetch. The code indexes `memory[PC + 1]` without a check, which is undefined behaviour in C past the end of memory. The model states this as a precondition of `Cycle`.
- `main` as an entry point, its exit status and the standard-library includes. Only its reset-then-cycle sequence is kept, as `InitThenCycle`.
- The globals' C linkage. The header defines them, and the model makes them fields of one `Machine` object.
- Chip8.Machine.constructor: does not promise the zero contents that C gives static storage before `init_chip8` runs, because every use of the state in this code comes after `Init`.
