/** The arithmetic and bit-level operations of the KENBAK-1 execution engine
    (src/scenes/MainScene.ts): addition with overflow/carry, two's-complement
    negation, the flag cell, branch conditions and one-place shifts/rotates. */
module Alu {
  import opened MemoryMap
  import opened Instructions

  /** What an addition produces: the wrapped sum and the two flags. */
  datatype AddResult = AddResult(sum: Byte, overflow: bool, carry: bool)

  /** The sign bit (bit 7) of a byte. */
  predicate Negative(v: Byte)
  {
    v & 0x80 != 0
  }

  lemma NegativeIsHigh(v: Byte)
    ensures Negative(v) <==> v as int >= 128
  {
  }

  /** The two's-complement reading of a byte, -128..127. */
  function Signed(v: Byte): (s: int)
    ensures -128 <= s < 128
  {
    if Negative(v) then v as int - 256 else v as int
  }

  /** A byte widened to 16 bits with its sign bit copied upward, so that
      16-bit addition of two such values is exact signed addition. */
  function SignExtend(v: Byte): bv16
  {
    if Negative(v) then v as bv16 | 0xFF00 else v as bv16
  }

  /** Adds value to a register's current contents, as addToRegister does: the
      sum is taken without truncation (16 bits hold any sum of two bytes),
      carry is "sum above 0xFF", overflow is the XOR-and-mask test on bit 7
      of the untruncated sum, and the register keeps the sum's low byte.
      The sum is the addition modulo 256; carry says the true sum exceeds 255;
      overflow says both operands have one sign and the result the other. */
  function AddBytes(current: Byte, value: Byte): (r: AddResult)
    ensures r.sum == current + value
    ensures r.carry <==> value > 0xFF - current
    ensures r.overflow <==> Negative(current) == Negative(value) && Negative(r.sum) != Negative(current)
  {
    var s := current as bv16 + value as bv16;
    AddResult((s & 0xFF) as bv8, (current as bv16 ^ s) & (value as bv16 ^ s) & 0x80 != 0, s > 0xFF)
  }

  /** The exact 16-bit signed sum of two bytes differs from the
      sign-extended wrapped sum. */
  predicate SignedSumDoesNotFit(current: Byte, value: Byte)
  {
    SignExtend(current) + SignExtend(value) != SignExtend(current + value)
  }

  lemma OverflowSameSign(current: Byte, value: Byte)
    requires Negative(current) == Negative(value)
    ensures SignedSumDoesNotFit(current, value) <==> Negative(current + value) != Negative(current)
  {
  }

  lemma OverflowMixedSign(current: Byte, value: Byte)
    requires Negative(current) != Negative(value)
    ensures !SignedSumDoesNotFit(current, value)
  {
  }

  /** Overflow is exactly "the signed sum does not fit a signed byte": the
      exact 16-bit signed sum differs from the sign-extended result. */
  lemma AddOverflowIsSignedOverflow(current: Byte, value: Byte)
    ensures AddBytes(current, value).overflow <==> SignedSumDoesNotFit(current, value)
  {
    if Negative(current) == Negative(value) {
      OverflowSameSign(current, value);
    } else {
      OverflowMixedSign(current, value);
    }
  }

  /** `(-value) & 0xFF`: the two's-complement negation used by SUB and LNEG;
      it is the additive inverse modulo 256. */
  function Negate(v: Byte): (r: Byte)
    ensures r + v == 0
  {
    -v
  }

  /** SUB adds the negation of its operand. The register gets current - value
      modulo 256, and the carry it leaves is set exactly when value is
      non-zero and not above current (no borrow). */
  lemma SubtractionFlags(current: Byte, value: Byte)
    ensures var r := AddBytes(current, Negate(value));
      && r.sum == current - value
      && (r.carry <==> value != 0 && value <= current)
  {
  }

  lemma NoBorrow(current: Byte, value: Byte)
    ensures Negate(value) > 0xFF - current <==> value != 0 && value <= current
  {
  }

  /** The value written to an overflow/carry cell: bit 0 overflow, bit 1 carry
      (setOverflowCarry). */
  function FlagCell(overflow: bool, carry: bool): (c: Byte)
    ensures c < 4
    ensures (c & 1 == 1) <==> overflow
    ensures (c & 2 == 2) <==> carry
  {
    (if overflow then 1 else 0) | (if carry then 2 else 0)
  }

  /** testCondition, applied to the value of the tested register. */
  predicate TestCondition(v: Byte, cond: Condition)
  {
    match cond
    case NonZero => v != 0
    case Zero => v == 0
    case LessThanZero => v & 0x80 != 0
    case Positive => v & 0x80 == 0
    case PositiveNonZero => v != 0 && v & 0x80 == 0
  }

  /** Each condition is a comparison of the register, read as a signed byte, with zero. */
  lemma ConditionsAreSignedComparisons(v: Byte)
    ensures TestCondition(v, NonZero) <==> Signed(v) != 0
    ensures TestCondition(v, Zero) <==> Signed(v) == 0
    ensures TestCondition(v, LessThanZero) <==> Signed(v) < 0
    ensures TestCondition(v, Positive) <==> Signed(v) >= 0
    ensures TestCondition(v, PositiveNonZero) <==> Signed(v) > 0
  {
    NegativeIsHigh(v);
  }

  /** One place of a shift or rotate (the body of executeShiftRotate's loop).
      On bv8, `<<` already drops the bit shifted out of bit 7, as `& 0xFF` does. */
  function ShiftStep(op: ShiftOp, v: Byte): (r: Byte)
    ensures op == ShiftLeft ==> r & 1 == 0 && r >> 1 == v & 0x7F
    ensures op == ShiftRight ==> r & 0x80 == v & 0x80 && r & 0x7F == v >> 1
    ensures op == RotateLeft ==> r & 1 == v >> 7 && r >> 1 == v & 0x7F
    ensures op == RotateRight ==> r >> 7 == v & 1 && r & 0x7F == v >> 1
  {
    match op
    case ShiftLeft => v << 1
    case ShiftRight => (v >> 1) | (v & 0x80)
    case RotateLeft => (v << 1) | ((v & 0x80) >> 7)
    case RotateRight => (v >> 1) | ((v & 0x01) << 7)
  }

  /** The step applied n times in a row. */
  function Repeat(op: ShiftOp, v: Byte, n: nat): Byte
  {
    if n == 0 then v else ShiftStep(op, Repeat(op, v, n - 1))
  }

  /** A left shift clears bit 0 and doubles the value modulo 256. */
  lemma ShiftLeftStep(v: Byte)
    ensures ShiftStep(ShiftLeft, v) & 1 == 0
    ensures ShiftStep(ShiftLeft, v) == v * 2
  {
  }

  /** An arithmetic right shift keeps bit 7 and halves the signed value,
      rounding toward minus infinity. */
  lemma ShiftRightStep(v: Byte)
    ensures ShiftStep(ShiftRight, v) & 0x80 == v & 0x80
    ensures Signed(ShiftStep(ShiftRight, v)) == Signed(v) / 2
  {
  }

  /** One-place rotations are mutual inverses. */
  lemma RotationsInverse(v: Byte)
    ensures ShiftStep(RotateRight, ShiftStep(RotateLeft, v)) == v
    ensures ShiftStep(RotateLeft, ShiftStep(RotateRight, v)) == v
  {
  }

  /** 2 to the n, in byte arithmetic. */
  function Pow2(n: nat): Byte
  {
    if n == 0 then 1 else 2 * Pow2(n - 1)
  }

  /** SFTL by n places multiplies by 2^n modulo 256. */
  lemma {:induction false} ShiftLeftMultiplies(v: Byte, n: nat)
    ensures Repeat(ShiftLeft, v, n) == v * Pow2(n)
  {
    if n > 0 {
      ShiftLeftMultiplies(v, n - 1);
      ShiftLeftStep(v * Pow2(n - 1));
      assert (v * Pow2(n - 1)) * 2 == v * (2 * Pow2(n - 1));
    }
  }

  /** SFTR by any number of places keeps the sign bit. */
  lemma {:induction false} ShiftRightKeepsSign(v: Byte, n: nat)
    ensures Repeat(ShiftRight, v, n) & 0x80 == v & 0x80
  {
    if n > 0 {
      ShiftRightKeepsSign(v, n - 1);
      ShiftRightStep(Repeat(ShiftRight, v, n - 1));
    }
  }

  /** Applying the step first instead of last gives the same result. */
  lemma {:induction false} RepeatFirst(op: ShiftOp, v: Byte, n: nat)
    requires n > 0
    ensures Repeat(op, v, n) == Repeat(op, ShiftStep(op, v), n - 1)
  {
    if n > 1 {
      RepeatFirst(op, v, n - 1);
    }
  }

  /** ROTR by n places undoes ROTL by n places. */
  lemma {:induction false} RotateRightUndoesRotateLeft(v: Byte, n: nat)
    ensures Repeat(RotateRight, Repeat(RotateLeft, v, n), n) == v
  {
    if n > 0 {
      var u := Repeat(RotateLeft, v, n - 1);
      RepeatFirst(RotateRight, ShiftStep(RotateLeft, u), n);
      RotationsInverse(u);
      RotateRightUndoesRotateLeft(v, n - 1);
    }
  }

  /** A rotation by four places is the same in either direction. */
  lemma HalfTurn(v: Byte)
    ensures Repeat(RotateLeft, v, 4) == Repeat(RotateRight, v, 4)
  {
    assert Repeat(RotateLeft, v, 1) == ShiftStep(RotateLeft, v);
    assert Repeat(RotateLeft, v, 2) == ShiftStep(RotateLeft, Repeat(RotateLeft, v, 1));
    assert Repeat(RotateLeft, v, 3) == ShiftStep(RotateLeft, Repeat(RotateLeft, v, 2));
    assert Repeat(RotateRight, v, 1) == ShiftStep(RotateRight, v);
    assert Repeat(RotateRight, v, 2) == ShiftStep(RotateRight, Repeat(RotateRight, v, 1));
    assert Repeat(RotateRight, v, 3) == ShiftStep(RotateRight, Repeat(RotateRight, v, 2));
  }
}
