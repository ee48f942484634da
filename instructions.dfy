/** Decoded KENBAK-1 instructions (DecodedInstruction in
    src/scenes/MainScene.ts), as a tagged variant per instruction family. */
module Instructions {
  import opened MemoryMap

  /** Stands for the source's `null` decode result. */
  datatype Option<T> = None | Some(value: T)

  /** How the operand byte of a two-byte instruction maps to a value or an address. */
  datatype Mode = Immediate | Memory | Indirect | Indexed | IndirectIndexed

  /** The branch conditions of JPD/JMD, tested on one register. */
  datatype Condition = NonZero | Zero | LessThanZero | Positive | PositiveNonZero

  datatype ArithOp = Add | Sub | Load | Store

  datatype LogicOp = And | Or | Lneg

  datatype ShiftOp = ShiftLeft | ShiftRight | RotateLeft | RotateRight

  /** The register a jump tests, or none for an unconditional jump. */
  datatype JumpTest = Tested(reg: Register) | Unconditional

  /** The place count of a shift or rotate. */
  type Places = p: nat | 1 <= p <= 4 witness 1

  datatype Instruction =
    | Arith(aop: ArithOp, reg: Register, mode: Mode, operand: Byte)          // ADD, SUB, LOAD, STORE
    | Logic(lop: LogicOp, mode: Mode, operand: Byte)                         // AND, OR, LNEG on A
    | Jump(mark: bool, test: JumpTest, cond: Condition, indirect: bool, operand: Byte)  // JPD, JMD
    | Skip(onOne: bool, bit: BitIndex, operand: Byte)                        // SKP0, SKP1
    | SetBit(toOne: bool, bit: BitIndex, operand: Byte)                      // SET 0, SET 1
    | ShiftRotate(sop: ShiftOp, reg: Register, places: Places)               // SFTL, SFTR, ROTL, ROTR
    | Noop
    | Halt
  {
    /** One-byte instructions have no operand byte. */
    predicate OneByte()
    {
      ShiftRotate? || Noop? || Halt?
    }
  }
}
