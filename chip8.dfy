/**
 * The CHIP-8 machine state and the first half of its instruction cycle.
 *
 * The state is the one declared for the interpreter: 4096 bytes of memory,
 * sixteen 8-bit registers V0..VF, the 16-bit index register I and program
 * counter PC, the delay and sound timers, a sixteen-entry stack of return
 * addresses with its stack pointer SP, and the last fetched opcode.
 *
 * `Init` resets the machine; `Cycle` fetches the big-endian opcode at PC,
 * advances PC by two and splits the opcode into its operand fields.  The
 * execute stage does not exist yet, so a cycle changes nothing else.
 */
module Chip8 {
  import opened Bitwise

  /** `uint8_t`. */
  type Uint8 = b: int | 0 <= b < 0x100

  /** `uint16_t`. */
  type Uint16 = w: int | 0 <= w < 0x1_0000

  /** Size of the addressable memory in bytes (`MEMSIZE`). */
  const MEMSIZE: nat := 4096

  /** Number of general registers V0..VF. */
  const REGISTERS: nat := 16

  /** Number of return-address slots in the call stack. */
  const STACK_DEPTH: nat := 16

  /** Programs are loaded, and execution starts, at this address. */
  const PROGRAM_START: Uint16 := 0x200

  /**
   * The operand fields of an opcode `_XYN` / `_Xkk` / `_nnn`: a 12-bit address
   * `nnn`, the low nibble `n`, the low byte `kk`, and the register indices `x`
   * (second nibble) and `y` (third nibble).  Widths are those of the locals
   * that hold them: `nnn` is a `uint16_t`, the others are `uint8_t`.
   */
  datatype Operands = Operands(nnn: Uint16, n: Uint8, kk: Uint8, x: Uint8, y: Uint8)

  /**
   * The fetched word `memory[PC] << 8 | memory[PC + 1]`, computed on C's
   * promoted `int` and then stored into the `uint16_t` opcode.  It is read
   * big-endian: the byte at PC is its high byte and the byte at PC + 1 its low
   * byte, and no bits are lost storing it in 16 bits.
   */
  function FetchOpcode(hi: Uint8, lo: Uint8): (w: Uint16)
    ensures w == hi as int * 0x100 + lo as int
    ensures w / 0x100 == hi && w % 0x100 == lo
  {
    JoinBytes(hi, lo);
    Or(ShiftLeft(hi, 8), lo) % 0x1_0000
  }

  /** `hi << 8 | lo` on two bytes is `hi * 256 + lo`, whose quotient and remainder by 256 are the bytes. */
  lemma JoinBytes(hi: Uint8, lo: Uint8)
    ensures Or(ShiftLeft(hi, 8), lo) % 0x1_0000 == hi as int * 0x100 + lo as int
    ensures (hi as int * 0x100 + lo as int) / 0x100 == hi && (hi as int * 0x100 + lo as int) % 0x100 == lo
  {
    assert Pow2(8) == 0x100;
    ShiftLeftIsMul(hi, 8);
    OrShiftedDisjoint(hi, lo, 8);
    var word := hi as int * 0x100 + lo as int;
    assert Or(ShiftLeft(hi, 8), lo) == word;
    DivModUnique(word, 0x1_0000, 0, word);
    DivModUnique(word, 0x100, hi, lo);
  }

  /**
   * Splits an opcode into its operand fields by masking and shifting.  Each
   * mask-and-shift selects whole hexadecimal digits of the opcode: the fields
   * are its low twelve bits, low nibble, low byte, second nibble and third nibble.
   */
  function Decode(opcode: Uint16): (f: Operands)
    ensures f == Operands(
      nnn := opcode % 0x1000,
      n := opcode % 0x10,
      kk := opcode % 0x100,
      x := opcode / 0x100 % 0x10,
      y := opcode / 0x10 % 0x10)
  {
    LowBitsField(opcode, 12, 0x1_0000);
    LowBitsField(opcode, 4, 0x100);
    LowBitsField(opcode, 8, 0x100);
    NibbleField(opcode, 8);
    NibbleField(opcode, 4);
    Operands(
      nnn := And(opcode, 0x0FFF) % 0x1_0000,
      n := And(opcode, 0x000F) % 0x100,
      kk := And(opcode, 0x00FF) % 0x100,
      x := ShiftRight(And(opcode, 0x0F00), 8) % 0x100,
      y := ShiftRight(And(opcode, 0x00F0), 4) % 0x100)
  }

  /** `opcode & (2^k - 1)`, narrowed to a type with `m >= 2^k` values, is `opcode % 2^k`. */
  lemma LowBitsField(opcode: nat, k: nat, m: nat)
    requires Pow2(k) <= m
    ensures And(opcode, Pow2(k) - 1) % m == opcode % Pow2(k)
  {
    AndLowMask(opcode, k);
    ModOfSmall(opcode % Pow2(k), m);
  }

  /** `(opcode & (0xF << k)) >> k`, narrowed to `uint8_t`, is the nibble at bit k. */
  lemma NibbleField(opcode: nat, k: nat)
    ensures ShiftRight(And(opcode, ShiftLeft(0xF, k)), k) % 0x100 == opcode / Pow2(k) % 0x10
  {
    SelectNibble(opcode, k);
    ModOfSmall(opcode / Pow2(k) % 0x10, 0x100);
  }

  /** `(opcode & (0xF << k)) >> k` is the nibble of `opcode` that starts at bit k. */
  lemma SelectNibble(opcode: nat, k: nat)
    ensures ShiftRight(And(opcode, ShiftLeft(0xF, k)), k) == opcode / Pow2(k) % 0x10
  {
    assert Pow2(4) - 1 == 0xF;
    AndShiftedMask(opcode, 0xF, k);
    ShiftRightOfShiftLeft(And(ShiftRight(opcode, k), 0xF), k);
    AndLowMask(ShiftRight(opcode, k), 4);
    ShiftRightIsDiv(opcode, k);
  }

  /** A 16-bit word is its four hexadecimal digits, most significant first. */
  lemma HexDigits(w: Uint16)
    ensures w == w / 0x1000 * 0x1000 + w / 0x100 % 0x10 * 0x100 + w / 0x10 % 0x10 * 0x10 + w % 0x10
    ensures w / 0x1000 < 0x10
    ensures w % 0x1000 == w / 0x100 % 0x10 * 0x100 + w % 0x100
    ensures w % 0x100 == w / 0x10 % 0x10 * 0x10 + w % 0x10
  {
    var d3, r3 := w / 0x1000, w % 0x1000;
    var d2, r2 := r3 / 0x100, r3 % 0x100;
    var d1, d0 := r2 / 0x10, r2 % 0x10;
    assert w == d3 * 0x1000 + d2 * 0x100 + d1 * 0x10 + d0;
    DivModUnique(w, 0x1000, d3, d2 * 0x100 + d1 * 0x10 + d0);
    DivModUnique(w, 0x100, d3 * 0x10 + d2, d1 * 0x10 + d0);
    DivModUnique(d3 * 0x10 + d2, 0x10, d3, d2);
    DivModUnique(w, 0x10, d3 * 0x100 + d2 * 0x10 + d1, d0);
    DivModUnique(d3 * 0x100 + d2 * 0x10 + d1, 0x10, d3 * 0x10 + d2, d1);
  }

  /**
   * The operand fields are in range and, with the opcode's top nibble, rebuild
   * the opcode: `kk` is `y` and `n` side by side, `nnn` is `x` followed by `kk`.
   */
  lemma DecodeReconstructs(opcode: Uint16)
    ensures Decode(opcode).nnn < 0x1000 && Decode(opcode).n < 0x10 && Decode(opcode).kk < 0x100
    ensures Decode(opcode).x < 0x10 && Decode(opcode).y < 0x10
    ensures Decode(opcode).kk == Decode(opcode).y * 0x10 + Decode(opcode).n
    ensures Decode(opcode).nnn == Decode(opcode).x * 0x100 + Decode(opcode).kk
    ensures opcode == opcode / 0x1000 * 0x1000 + Decode(opcode).x * 0x100 + Decode(opcode).kk
  {
    HexDigits(opcode);
  }

  /**
   * Decoding a fetched opcode in terms of the two bytes it was read from: `x`
   * is the low nibble of the first byte, `kk` the whole second byte, `y` and
   * `n` its two nibbles, and `nnn` everything but the first byte's high nibble.
   */
  lemma DecodeFetched(hi: Uint8, lo: Uint8)
    ensures Decode(FetchOpcode(hi, lo)) == Operands(
      nnn := hi % 0x10 * 0x100 + lo,
      n := lo % 0x10,
      kk := lo,
      x := hi % 0x10,
      y := lo / 0x10)
  {
    var w := FetchOpcode(hi, lo);
    var h1, h0, l1, l0 := hi / 0x10, hi % 0x10, lo / 0x10, lo % 0x10;
    assert w == h1 * 0x1000 + h0 * 0x100 + l1 * 0x10 + l0;
    DivModUnique(w, 0x1000, h1, h0 * 0x100 + lo);
    DivModUnique(w, 0x100, hi, lo);
    DivModUnique(hi, 0x10, h1, h0);
    DivModUnique(w, 0x10, hi * 0x10 + l1, l0);
    DivModUnique(hi * 0x10 + l1, 0x10, hi, l1);
  }

  /** The interpreter's global machine state. */
  class Machine {
    /** The opcode fetched by the last cycle. */
    var opcode: Uint16
    const memory: array<Uint8>
    /** General registers V0..VF. */
    const v: array<Uint8>
    /** Index register. */
    var I: Uint16
    /** Program counter. */
    var PC: Uint16
    var delayTimer: Uint8
    var soundTimer: Uint8
    /** Return addresses. */
    const stack: array<Uint16>
    /** Stack pointer. */
    var SP: Uint8

    /** The buffers have their declared sizes and are distinct objects. */
    ghost predicate Valid()
      reads this
    {
      memory.Length == MEMSIZE && v.Length == REGISTERS && stack.Length == STACK_DEPTH && memory != v
    }

    /**
     * Allocates the state.  Its contents are left unspecified: `Init` is what
     * gives every part of it a defined value.
     */
    constructor ()
      ensures Valid() && fresh(memory) && fresh(v) && fresh(stack)
    {
      opcode, I, PC, delayTimer, soundTimer, SP := 0, 0, 0, 0, 0, 0;
      memory := new Uint8[MEMSIZE];
      v := new Uint8[REGISTERS];
      stack := new Uint16[STACK_DEPTH];
    }

    /** Resets memory, registers, timers and stack to zero and PC to the program start. */
    method Init()
      requires Valid()
      modifies this, memory, v, stack
      ensures Valid()
      ensures opcode == 0
      ensures forall a :: 0 <= a < memory.Length ==> memory[a] == 0
      ensures forall r :: 0 <= r < v.Length ==> v[r] == 0
      ensures I == 0
      ensures delayTimer == 0 && soundTimer == 0
      ensures PC == PROGRAM_START
      ensures SP == 0
      ensures forall d :: 0 <= d < stack.Length ==> stack[d] == 0
    {
      opcode := 0;

      forall a | 0 <= a < memory.Length {
        memory[a] := 0;
      }
      forall r | 0 <= r < v.Length {
        v[r] := 0;
      }
      I := 0;

      delayTimer := 0;
      soundTimer := 0;

      PC := PROGRAM_START;

      SP := 0;
      forall d | 0 <= d < stack.Length {
        stack[d] := 0;
      }
    }

    /**
     * One cycle: fetch the opcode at PC, advance PC past it (modulo 2^16, as
     * PC is 16 bits wide) and split the opcode into its operand fields, which
     * are returned.  The byte after PC is read unchecked, so PC + 1 must be a
     * memory address.  Only `opcode` and `PC` change.
     */
    method Cycle() returns (ops: Operands)
      requires Valid()
      requires PC + 1 < MEMSIZE
      modifies this`opcode, this`PC
      ensures Valid()
      ensures opcode == FetchOpcode(memory[old(PC)], memory[old(PC) + 1])
      ensures opcode == memory[old(PC)] as int * 0x100 + memory[old(PC) + 1] as int
      ensures PC == (old(PC) + 2) % 0x1_0000 && PC == old(PC) + 2
      ensures ops == Decode(opcode)
      ensures I == old(I) && delayTimer == old(delayTimer) && soundTimer == old(soundTimer) && SP == old(SP)
      ensures unchanged(memory) && unchanged(v) && unchanged(stack)
    {
      opcode := FetchOpcode(memory[PC], memory[PC + 1]);
      ModOfSmall(PC + 2, 0x1_0000);
      PC := (PC + 2) % 0x1_0000;

      ops := Decode(opcode);
    }
  }

  /**
   * The program's only run: reset a machine and execute one cycle.  Memory is
   * all zero, so the fetched opcode and all its fields are 0 and PC moves from
   * the program start to 0x202.
   */
  method InitThenCycle() returns (opcode: Uint16, pc: Uint16, ops: Operands)
    ensures opcode == 0 && pc == 0x202
    ensures ops == Operands(nnn := 0, n := 0, kk := 0, x := 0, y := 0)
  {
    var m := new Machine();
    m.Init();
    ops := m.Cycle();
    opcode, pc := m.opcode, m.PC;
    DecodeReconstructs(opcode);
  }
}
