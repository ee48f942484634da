/** The KENBAK-1 address space: 256 byte cells, some of which are the
    machine's registers (MEMORY_MAP in src/scenes/MainScene.ts). */
module MemoryMap {

  /** One memory cell. Bit-vector arithmetic on it wraps modulo 256. */
  type Byte = bv8

  /** The whole memory: exactly 256 cells, indexed by a byte address. */
  type Mem = m: seq<Byte> | |m| == 256 witness seq(256, _ => 0)

  /** A bit position inside a byte, 0 (least significant) to 7. */
  type BitIndex = b: bv8 | b < 8

  // Registers are not separate storage: each one is a fixed memory address.
  const A_REGISTER: Byte := 0
  const B_REGISTER: Byte := 1
  const X_REGISTER: Byte := 2
  const P_REGISTER: Byte := 3
  const OUTPUT_REGISTER: Byte := 128
  const A_OVERFLOW: Byte := 129
  const B_OVERFLOW: Byte := 130
  const X_OVERFLOW: Byte := 131
  const INPUT_REGISTER: Byte := 255

  /** The three general registers an instruction can name. */
  datatype Register = A | B | X

  /** The address of a general register; never that of P. */
  function RegisterAddress(r: Register): (a: Byte)
    ensures a < P_REGISTER
  {
    match r
    case A => A_REGISTER
    case B => B_REGISTER
    case X => X_REGISTER
  }

  /** The overflow/carry cell of a register: 129, 130 or 131, in register order. */
  function OverflowAddress(r: Register): (a: Byte)
    ensures A_OVERFLOW <= a <= X_OVERFLOW
    ensures a == RegisterAddress(r) + A_OVERFLOW
  {
    match r
    case A => A_OVERFLOW
    case B => B_OVERFLOW
    case X => X_OVERFLOW
  }

  /** The single-bit mask of position b. */
  function BitMask(b: BitIndex): Byte
  {
    1 << b
  }

  /** Whether bit b of v is 1. */
  predicate BitSet(v: Byte, b: BitIndex)
  {
    (v >> b) & 1 == 1
  }

  /** v with bit b flipped: that bit changes and no other does. */
  function ToggleBit(v: Byte, b: BitIndex): (r: Byte)
    ensures BitSet(r, b) != BitSet(v, b)
    ensures forall k: BitIndex :: k != b ==> BitSet(r, k) == BitSet(v, k)
  {
    v ^ BitMask(b)
  }

  /** Flipping the same bit twice restores the byte. */
  lemma ToggleTwice(v: Byte, b: BitIndex)
    ensures ToggleBit(ToggleBit(v, b), b) == v
  {
  }

  /** Distinct addresses are distinct cells of the sequence. */
  lemma DistinctCells(a: Byte, b: Byte)
    requires a != b
    ensures a as int != b as int
  {
  }

  /** A cell that neither of two writes touches keeps its value. */
  lemma OtherCellUnchanged(m: Mem, first: Byte, v: Byte, second: Byte, w: Byte, a: Byte)
    requires a != first && a != second
    ensures m[first := v][second := w][a] == m[a]
  {
    DistinctCells(a, first);
    DistinctCells(a, second);
    assert a as int != first as int && a as int != second as int;
  }

  /** Two writes in a row: the second cell holds its value, the first holds
      its value unless the second write overwrote it, and every other cell
      is as before. */
  lemma WriteTwice(m: Mem, first: Byte, v: Byte, second: Byte, w: Byte)
    ensures m[first := v][second := w][second] == w
    ensures first != second ==> m[first := v][second := w][first] == v
    ensures forall a: Byte :: a != first && a != second ==> m[first := v][second := w][a] == m[a]
  {
    forall a: Byte | a != first && a != second
      ensures m[first := v][second := w][a] == m[a]
    {
      OtherCellUnchanged(m, first, v, second, w, a);
    }
    if first != second {
      DistinctCells(first, second);
    }
  }
}
