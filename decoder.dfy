/** The instruction decoder of src/scenes/MainScene.ts (decodeAddressingMode,
    decodeRegister, decodeInstruction): a pure function from the first and
    second instruction bytes to an instruction, or None where the source
    returns null. The rules are tried in the source's order, quirks included. */
module Decoder {
  import opened MemoryMap
  import opened Instructions

  /** Bits 2-0 of the first byte. */
  function ModeBits(first: Byte): Byte
  {
    first & 0x07
  }

  /** Bit 5 of the first byte, as 0 or 1. */
  function Bit5(first: Byte): Byte
  {
    (first >> 5) & 1
  }

  /** decodeAddressingMode: bits 2-0 select the mode, inverting the mode
      code; the codes 000-010 fall back to MEMORY. */
  function DecodeAddressingMode(first: Byte): (mode: Mode)
    ensures 3 <= ModeBits(first) ==> ModeCode(mode) == ModeBits(first)
    ensures ModeBits(first) < 3 ==> mode == Memory
  {
    var mode := ModeBits(first);
    if mode == 3 then Immediate
    else if mode == 4 then Memory
    else if mode == 5 then Indirect
    else if mode == 6 then Indexed
    else if mode == 7 then IndirectIndexed
    else Memory // the switch's default
  }

  /** decodeRegister: bits 7-6 select the register, inverting its code;
      11 falls back to A. */
  function DecodeRegister(first: Byte): (r: Register)
    ensures (first >> 6) & 3 < 3 ==> RegisterBits(r) == (first >> 6) & 3
    ensures (first >> 6) & 3 == 3 ==> r == A
  {
    var reg := (first >> 6) & 3;
    if reg == 0 then A
    else if reg == 1 then B
    else if reg == 2 then X
    else A
  }

  /** The branch condition from bits 2-0 of a jump. */
  function DecodeCondition(bits: Byte): Condition
  {
    if bits == 3 then NonZero
    else if bits == 4 then Zero
    else if bits == 5 then LessThanZero
    else if bits == 6 then Positive
    else if bits == 7 then PositiveNonZero
    else NonZero // the switch's default
  }

  /** The opcode field: bits 4-3 of a data instruction. */
  function ArithOpOf(bits43: Byte): ArithOp
  {
    if bits43 == 0 then Add else if bits43 == 1 then Sub else if bits43 == 2 then Load else Store
  }

  /** decodeInstruction: the rules in the source's order. The first rule
      claims every byte with bit 5 clear and mode bits 011..111, so the
      AND/OR/LNEG rule after it never fires; the jump rule claims every byte
      with bit 5 set and answers None when its condition bits are below 011. */
  function Decode(first: Byte, second: Byte): Option<Instruction>
  {
    var register := DecodeRegister(first);
    var modeBits := ModeBits(first);
    var bit5 := Bit5(first);
    var bits43 := (first >> 3) & 3;
    var bits73 := (first >> 3) & 0x1F;
    var bit7 := (first >> 7) & 1;
    if bit5 == 0 && 3 <= modeBits <= 7 then
      Some(Arith(ArithOpOf(bits43), register, DecodeAddressingMode(first), second))
    else if 3 <= modeBits <= 7 && bits73 == 0x1A then
      Some(Logic(And, DecodeAddressingMode(first), second))
    else if 3 <= modeBits <= 7 && bits73 == 0x18 then
      Some(Logic(Or, DecodeAddressingMode(first), second))
    else if 3 <= modeBits <= 7 && bits73 == 0x1B then
      Some(Logic(Lneg, DecodeAddressingMode(first), second))
    else if bit5 == 1 then
      if modeBits < 3 || modeBits > 7 then None
      else
        var registerBits := (first >> 6) & 3;
        var test := if registerBits == 0 then Tested(A)
                    else if registerBits == 1 then Tested(B)
                    else if registerBits == 2 then Tested(X)
                    else Unconditional;
        Some(Jump((first >> 4) & 1 == 1, test, DecodeCondition(modeBits), (first >> 3) & 1 != 0, second))
    else if bit7 == 1 && modeBits == 2 then
      Some(Skip((first >> 6) & 1 == 1, (first >> 3) & 7, second))
    else if bit7 == 0 && modeBits == 2 then
      Some(SetBit((first >> 6) & 1 == 1, (first >> 3) & 7, second))
    else if modeBits == 1 then
      var op := if (first >> 6) & 1 == 1 then (if bit7 == 1 then RotateLeft else RotateRight)
                else (if bit7 == 1 then ShiftLeft else ShiftRight);
      var places := ((first >> 3) & 3) as int + 1;
      Some(ShiftRotate(op, if bit5 == 1 then B else A, places))
    else if modeBits == 0 then
      if bit7 == 1 then Some(Noop) else Some(Halt)
    else
      None
  }

  /** Decoding fails exactly when bit 5 is set and bits 2-0 are 000, 001 or
      010: SET/SKIP on bit positions 4-7, SHIFT/ROTATE of B, and NOOP/HALT
      with bit 5 set are all lost. */
  lemma DecodeFailsExactly(first: Byte, second: Byte)
    ensures Decode(first, second).None? <==> Bit5(first) == 1 && ModeBits(first) <= 2
  {
  }

  /** The fetch width (one byte when bits 2-0 are 000 or 001) agrees with the
      instruction decoded. */
  lemma DecodedWidth(first: Byte, second: Byte)
    requires Decode(first, second).Some?
    ensures Decode(first, second).value.OneByte() <==> ModeBits(first) <= 1
  {
  }

  /** The operand of an instruction (0 for one-byte instructions). */
  function OperandOf(i: Instruction): Byte
  {
    if i.OneByte() then 0 else i.operand
  }

  /** The instruction with its operand byte replaced. */
  function WithOperand(i: Instruction, operand: Byte): Instruction
  {
    match i
    case Arith(op, r, m, _) => Arith(op, r, m, operand)
    case Logic(op, m, _) => Logic(op, m, operand)
    case Jump(mark, t, c, ind, _) => Jump(mark, t, c, ind, operand)
    case Skip(one, b, _) => Skip(one, b, operand)
    case SetBit(one, b, _) => SetBit(one, b, operand)
    case _ => i
  }

  /** The second byte is used only as the operand of two-byte instructions. */
  lemma DecodeUsesSecondByteOnlyAsOperand(first: Byte, second: Byte)
    ensures Decode(first, second).None? <==> Decode(first, 0).None?
    ensures Decode(first, second).Some? ==>
      && Decode(first, second).value == WithOperand(Decode(first, 0).value, second)
      && (!Decode(first, second).value.OneByte() ==> OperandOf(Decode(first, second).value) == second)
  {
  }

  /** Every first byte with bit 5 clear and a valid mode decodes to ADD, SUB,
      LOAD or STORE: opcode by bits 4-3, register by bits 7-6 (11 meaning A),
      mode by bits 2-0, operand the second byte. */
  lemma DataInstructionsClaimBit5Clear(first: Byte, second: Byte)
    requires Bit5(first) == 0 && ModeBits(first) >= 3
    ensures Decode(first, second) ==
      Some(Arith(ArithOpOf((first >> 3) & 3), DecodeRegister(first), DecodeAddressingMode(first), second))
  {
  }

  /** Hence the AND (11010xxx), OR (11000xxx) and LNEG (11011xxx) encodings
      decode as LOAD, ADD and STORE of register A. */
  lemma LogicEncodingsDecodeAsArith(first: Byte, second: Byte)
    requires ModeBits(first) >= 3
    ensures first >> 3 == 0x1A ==> Decode(first, second) == Some(Arith(Load, A, DecodeAddressingMode(first), second))
    ensures first >> 3 == 0x18 ==> Decode(first, second) == Some(Arith(Add, A, DecodeAddressingMode(first), second))
    ensures first >> 3 == 0x1B ==> Decode(first, second) == Some(Arith(Store, A, DecodeAddressingMode(first), second))
  {
  }

  /** The instructions decoding can produce: no AND/OR/LNEG, SET/SKIP only on
      bit positions 0-3, SHIFT/ROTATE only of register A. */
  predicate Decodable(i: Instruction)
  {
    match i
    case Logic(_, _, _) => false
    case Skip(_, b, _) => b < 4
    case SetBit(_, b, _) => b < 4
    case ShiftRotate(_, r, _) => r == A
    case _ => true
  }

  /** A first byte with bit 5 clear and bits 2-0 at 000 is NOOP when bit 7
      is set and HALT otherwise, whatever bits 6, 4 and 3 hold: the
      encodings 0x00 and 0x80 each have seven aliases. */
  lemma ControlEncodings(first: Byte, second: Byte)
    requires Bit5(first) == 0 && ModeBits(first) == 0
    ensures Decode(first, second) == if first >> 7 == 1 then Some(Noop) else Some(Halt)
  {
  }

  /** Everything decoding produces is Decodable. */
  lemma DecodeImage(first: Byte, second: Byte)
    ensures Decode(first, second).Some? ==> Decodable(Decode(first, second).value)
  {
  }

  function RegisterBits(r: Register): Byte
  {
    match r
    case A => 0
    case B => 1
    case X => 2
  }

  function ModeCode(m: Mode): Byte
  {
    match m
    case Immediate => 3
    case Memory => 4
    case Indirect => 5
    case Indexed => 6
    case IndirectIndexed => 7
  }

  function ConditionCode(c: Condition): Byte
  {
    match c
    case NonZero => 3
    case Zero => 4
    case LessThanZero => 5
    case Positive => 6
    case PositiveNonZero => 7
  }

  function ArithCode(op: ArithOp): Byte
  {
    match op
    case Add => 0
    case Sub => 1
    case Load => 2
    case Store => 3
  }

  /** Bits 7-6 of a shift or rotate: direction (1 = left) and kind (1 = rotate). */
  function ShiftCode(op: ShiftOp): Byte
  {
    match op
    case ShiftRight => 0x00
    case RotateRight => 0x40
    case ShiftLeft => 0x80
    case RotateLeft => 0xC0
  }

  /** The KENBAK-1 encoding of a decodable instruction, following the bit
      fields the decoder reads. */
  function Encode(i: Instruction): (bytes: (Byte, Byte))
    requires Decodable(i)
  {
    match i
    case Arith(op, r, m, operand) =>
      ((RegisterBits(r) << 6) | (ArithCode(op) << 3) | ModeCode(m), operand)
    case Jump(mark, test, cond, indirect, operand) =>
      var t: Byte := if test.Unconditional? then 3 else RegisterBits(test.reg);
      ((t << 6) | 0x20 | (if mark then 0x10 else 0) | (if indirect then 0x08 else 0) | ConditionCode(cond), operand)
    case Skip(onOne, b, operand) =>
      (0x80 | (if onOne then 0x40 else 0) | (b << 3) | 0x02, operand)
    case SetBit(toOne, b, operand) =>
      ((if toOne then 0x40 else 0) | (b << 3) | 0x02, operand)
    case ShiftRotate(op, _, places) =>
      (ShiftCode(op) | (((places - 1) as bv8) << 3) | 0x01, 0)
    case Noop => (0x80, 0)
    case Halt => (0x00, 0)
  }

  /** Decoding inverts encoding on every decodable instruction; with
      DecodeImage this says the decoder's image is exactly Decodable. */
  lemma {:induction false} DecodeEncode(i: Instruction)
    requires Decodable(i)
    ensures Decode(Encode(i).0, Encode(i).1) == Some(i)
  {
    match i
    case Arith(op, r, m, operand) =>
    case Jump(mark, test, cond, indirect, operand) =>
    case Skip(onOne, b, operand) =>
    case SetBit(toOne, b, operand) =>
    case ShiftRotate(op, r, places) =>
    case Noop =>
    case Halt =>
  }
}
