/** What one instruction does to the 256-byte memory, as pure functions from
    the memory before to the memory after (the execution engine of
    src/scenes/MainScene.ts). The Kenbak class in machine.dfy runs the same
    steps in place on its memory array and is proved against these. */
module Semantics {
  import opened MemoryMap
  import opened Instructions
  import opened Alu
  import opened Decoder

  /** resolveAddress: the effective address of a mode and operand byte.
      Address arithmetic wraps modulo 256. */
  function ResolveAddress(m: Mem, mode: Mode, operand: Byte): (a: Byte)
  {
    match mode
    case Immediate => operand
    case Memory => operand
    case Indirect => m[operand]
    case Indexed => operand + m[X_REGISTER]
    case IndirectIndexed => m[operand] + m[X_REGISTER]
  }

  /** resolveOperand: the effective value. Apart from IMMEDIATE, it is the
      cell at the effective address. */
  function ResolveOperand(m: Mem, mode: Mode, operand: Byte): (v: Byte)
    ensures mode == Immediate ==> v == operand
    ensures mode != Immediate ==> v == m[ResolveAddress(m, mode, operand)]
  {
    match mode
    case Immediate => operand
    case Memory => m[operand]
    case Indirect =>
      var indirectAddress := m[operand];
      m[indirectAddress]
    case Indexed =>
      var indexedAddress := operand + m[X_REGISTER];
      m[indexedAddress]
    case IndirectIndexed =>
      var finalAddress := m[operand] + m[X_REGISTER];
      m[finalAddress]
  }

  /** STORE IMMEDIATE stores at the address the operand byte names, exactly
      as STORE MEMORY does (not into the instruction's own second byte). */
  lemma StoreImmediateIsStoreMemory(m: Mem, operand: Byte)
    ensures ResolveAddress(m, Immediate, operand) == ResolveAddress(m, Memory, operand) == operand
  {
  }

  /** addToRegister: the register gets the sum modulo 256 and its flag cell
      gets overflow (bit 0) and carry (bit 1); no other cell changes. */
  function AddToRegister(m: Mem, r: Register, value: Byte): (m': Mem)
    ensures m'[RegisterAddress(r)] == m[RegisterAddress(r)] + value
    ensures m'[OverflowAddress(r)] & 1 == 1 <==>
      Negative(m[RegisterAddress(r)]) == Negative(value) && Negative(m'[RegisterAddress(r)]) != Negative(value)
    ensures m'[OverflowAddress(r)] & 2 == 2 <==> value > 0xFF - m[RegisterAddress(r)]
    ensures m'[OverflowAddress(r)] < 4
    ensures forall a: Byte :: a != RegisterAddress(r) && a != OverflowAddress(r) ==> m'[a] == m[a]
  {
    var result := AddBytes(m[RegisterAddress(r)], value);
    WriteTwice(m, RegisterAddress(r), result.sum, OverflowAddress(r), FlagCell(result.overflow, result.carry));
    m[RegisterAddress(r) := result.sum][OverflowAddress(r) := FlagCell(result.overflow, result.carry)]
  }

  /** subtractFromRegister: adds the two's-complement negation. */
  function SubtractFromRegister(m: Mem, r: Register, value: Byte): Mem
  {
    AddToRegister(m, r, Negate(value))
  }

  /** SUB leaves register - value (modulo 256) in the register. */
  lemma SubtractLeavesDifference(m: Mem, r: Register, value: Byte)
    ensures SubtractFromRegister(m, r, value)[RegisterAddress(r)] == m[RegisterAddress(r)] - value
  {
  }

  /** The carry SUB leaves means "no borrow": value is non-zero and not
      above the register. */
  lemma SubtractCarryIsNoBorrow(m: Mem, r: Register, value: Byte)
    ensures SubtractFromRegister(m, r, value)[OverflowAddress(r)] & 2 == 2 <==>
      value != 0 && value <= m[RegisterAddress(r)]
  {
    NoBorrow(m[RegisterAddress(r)], value);
  }

  /** The cell a SET instruction writes: bit b forced to 1 or to 0. */
  function SetBitOf(v: Byte, toOne: bool, b: BitIndex): Byte
  {
    if toOne then v | BitMask(b) else v & !BitMask(b)
  }

  /** SET changes bit b and no other bit. */
  lemma SetBitOfChangesOneBit(v: Byte, toOne: bool, b: BitIndex)
    ensures BitSet(SetBitOf(v, toOne, b), b) == toOne
    ensures forall k: BitIndex :: k != b ==> BitSet(SetBitOf(v, toOne, b), k) == BitSet(v, k)
  {
  }

  /** The effect of a two-byte data instruction or SET, before P moves. */
  function DataEffect(m: Mem, i: Instruction): Mem
    requires i.Arith? || i.Logic? || i.SetBit?
  {
    match i
    case Arith(op, r, mode, operand) =>
      (match op
       case Add => AddToRegister(m, r, ResolveOperand(m, mode, operand))
       case Sub => SubtractFromRegister(m, r, ResolveOperand(m, mode, operand))
       case Load => m[RegisterAddress(r) := ResolveOperand(m, mode, operand)]
       case Store => m[ResolveAddress(m, mode, operand) := m[RegisterAddress(r)]])
    case Logic(op, mode, operand) =>
      (match op
       case And => m[A_REGISTER := m[A_REGISTER] & ResolveOperand(m, mode, operand)]
       case Or => m[A_REGISTER := m[A_REGISTER] | ResolveOperand(m, mode, operand)]
       case Lneg => m[A_REGISTER := Negate(ResolveOperand(m, mode, operand))])
    case SetBit(toOne, b, operand) =>
      m[operand := SetBitOf(m[operand], toOne, b)]
  }

  /** P moved forward by k, reading P from the memory given (so after the
      instruction's own effect). */
  function AdvanceP(m: Mem, k: Byte): Mem
  {
    m[P_REGISTER := m[P_REGISTER] + k]
  }

  /** Whether a jump is taken: always when unconditional, otherwise when the
      tested register satisfies the condition. */
  predicate JumpTaken(m: Mem, test: JumpTest, cond: Condition)
  {
    test.Unconditional? || TestCondition(m[RegisterAddress(test.reg)], cond)
  }

  /** The jump target: the operand (direct) or the cell it names (indirect). */
  function JumpTarget(m: Mem, indirect: bool, operand: Byte): Byte
  {
    if !indirect then operand else m[operand]
  }

  /** executeJump. */
  function ExecuteJump(m: Mem, mark: bool, test: JumpTest, cond: Condition, indirect: bool, operand: Byte): Mem
  {
    var currentP := m[P_REGISTER];
    var target := JumpTarget(m, indirect, operand);
    if JumpTaken(m, test, cond) then
      if mark then
        m[target := currentP + 2][P_REGISTER := target + 1]
      else
        m[P_REGISTER := target]
    else
      m[P_REGISTER := currentP + 2]
  }

  /** Whether SKP0/SKP1 skips: bit b of the cell is 0 (resp. 1). */
  predicate SkipTaken(m: Mem, onOne: bool, b: BitIndex, operand: Byte)
  {
    var bitValue := (m[operand] >> b) & 1;
    if onOne then bitValue == 1 else bitValue == 0
  }

  /** executeSkip: only P moves, by 4 on a skip and by 2 otherwise. */
  function ExecuteSkip(m: Mem, onOne: bool, b: BitIndex, operand: Byte): (m': Mem)
  {
    var currentP := m[P_REGISTER];
    if SkipTaken(m, onOne, b, operand) then m[P_REGISTER := currentP + 4]
    else m[P_REGISTER := currentP + 2]
  }

  /** executeShiftRotate: the register (A or B) gets the step applied
      `places` times and P moves by 1; for X the source returns at once. */
  function ExecuteShiftRotate(m: Mem, op: ShiftOp, r: Register, places: Places): Mem
  {
    var currentP := m[P_REGISTER];
    if r == X then m
    else m[RegisterAddress(r) := Repeat(op, m[RegisterAddress(r)], places)][P_REGISTER := currentP + 1]
  }

  /** executeInstruction, memory part. Data instructions and SET move P by 2
      after their effect, reading P afresh. */
  function Execute(m: Mem, i: Instruction): Mem
  {
    match i
    case Arith(_, _, _, _) => AdvanceP(DataEffect(m, i), 2)
    case Logic(_, _, _) => AdvanceP(DataEffect(m, i), 2)
    case SetBit(_, _, _) => AdvanceP(DataEffect(m, i), 2)
    case Jump(mark, test, cond, indirect, operand) => ExecuteJump(m, mark, test, cond, indirect, operand)
    case Skip(onOne, b, operand) => ExecuteSkip(m, onOne, b, operand)
    case ShiftRotate(op, r, places) => ExecuteShiftRotate(m, op, r, places)
    case Noop => AdvanceP(m, 1)
    case Halt => AdvanceP(m, 1)
  }

  /** The memory after one fetch-and-execute, and whether it executed HALT. */
  datatype StepResult = StepResult(mem: Mem, halted: bool)

  /** Whether a first byte is fetched alone (bits 2-0 are 000 or 001). */
  predicate IsOneByte(first: Byte)
  {
    ModeBits(first) <= 1
  }

  /** The second half of fetchAndExecute, given the fetched bytes: decode,
      then execute, or, when decoding fails, move P past the instruction's
      assumed width (1 when bits 2-0 are 000 or 001, else 2). */
  function ExecuteFetched(m: Mem, first: Byte, second: Byte): StepResult
  {
    match Decode(first, second)
    case Some(i) => StepResult(Execute(m, i), i.Halt?)
    case None => StepResult(m[P_REGISTER := m[P_REGISTER] + (if IsOneByte(first) then 1 else 2)], false)
  }

  /** fetchAndExecute: fetch at P, fetch the second byte (at P + 1 modulo
      256) unless the first is one-byte, then decode and execute. */
  function FetchAndExecute(m: Mem): StepResult
  {
    var pc := m[P_REGISTER];
    var first := m[pc];
    ExecuteFetched(m, first, if IsOneByte(first) then 0 else m[pc + 1])
  }

  // ---------------------------------------------------------------------
  // Properties of one instruction

  /** A failed decode (bit 5 set, bits 2-0 at most 010) changes nothing but
      P, which moves by 1 for bits 000/001 and by 2 for 010. */
  lemma UndecodableInstructionIsSkipped(m: Mem)
    requires Bit5(m[m[P_REGISTER]]) == 1 && ModeBits(m[m[P_REGISTER]]) <= 2
    ensures var r := FetchAndExecute(m);
      && !r.halted
      && r.mem[P_REGISTER] == m[P_REGISTER] + (if ModeBits(m[m[P_REGISTER]]) == 2 then 2 else 1)
      && forall a: Byte :: a != P_REGISTER ==> r.mem[a] == m[a]
  {
    var pc := m[P_REGISTER];
    var first := m[pc];
    var second := if IsOneByte(first) then 0 else m[pc + 1];
    DecodeFailsExactly(first, second);
  }

  /** The machine halts exactly on a first byte of the form 0x0xx000. */
  lemma HaltsExactlyOnHaltEncoding(m: Mem)
    ensures FetchAndExecute(m).halted <==> m[m[P_REGISTER]] & 0xA7 == 0
  {
  }

  /** ADD and SUB, LOAD and the logic instructions never write P; P then
      moves by exactly 2. */
  lemma DataInstructionAdvancesP(m: Mem, i: Instruction)
    requires (i.Arith? && i.aop != Store) || i.Logic?
    ensures Execute(m, i)[P_REGISTER] == m[P_REGISTER] + 2
  {
  }

  /** STORE and SET whose target is P itself are observed by the P step:
      the new P is the stored value plus 2. */
  lemma SelfModifiedP(m: Mem, i: Instruction)
    requires (i.Arith? && i.aop == Store && ResolveAddress(m, i.mode, i.operand) == P_REGISTER)
          || (i.SetBit? && i.operand == P_REGISTER)
    ensures i.Arith? ==> Execute(m, i)[P_REGISTER] == m[RegisterAddress(i.reg)] + 2
    ensures i.SetBit? ==> Execute(m, i)[P_REGISTER] == SetBitOf(m[P_REGISTER], i.toOne, i.bit) + 2
  {
  }

  /** AND, OR, LNEG and SHIFT/ROTATE never touch the flag cells 129-131. */
  lemma FlagCellsUntouched(m: Mem, i: Instruction)
    requires i.Logic? || i.ShiftRotate?
    ensures forall a: Byte :: A_OVERFLOW <= a <= X_OVERFLOW ==> Execute(m, i)[a] == m[a]
  {
  }

  /** A jump not taken changes only P, which moves by 2. */
  lemma JumpNotTaken(m: Mem, mark: bool, test: JumpTest, cond: Condition, indirect: bool, operand: Byte)
    requires !JumpTaken(m, test, cond)
    ensures var m' := ExecuteJump(m, mark, test, cond, indirect, operand);
      && m'[P_REGISTER] == m[P_REGISTER] + 2
      && forall a: Byte :: a != P_REGISTER ==> m'[a] == m[a]
  {
  }

  /** A taken JPD only sets P to the target. */
  lemma JumpTakenSetsP(m: Mem, test: JumpTest, cond: Condition, indirect: bool, operand: Byte)
    requires JumpTaken(m, test, cond)
    ensures var m' := ExecuteJump(m, false, test, cond, indirect, operand);
      && m'[P_REGISTER] == JumpTarget(m, indirect, operand)
      && forall a: Byte :: a != P_REGISTER ==> m'[a] == m[a]
  {
  }

  /** A taken JMD stores the return address P + 2 at the target and
      continues just after it; it changes nothing else. */
  lemma JumpAndMarkTaken(m: Mem, test: JumpTest, cond: Condition, indirect: bool, operand: Byte)
    requires JumpTaken(m, test, cond)
    ensures var m' := ExecuteJump(m, true, test, cond, indirect, operand);
      var target := JumpTarget(m, indirect, operand);
      && m'[P_REGISTER] == target + 1
      && (target != P_REGISTER ==> m'[target] == m[P_REGISTER] + 2)
      && forall a: Byte :: a != P_REGISTER && a != target ==> m'[a] == m[a]
  {
    var target := JumpTarget(m, indirect, operand);
    WriteTwice(m, target, m[P_REGISTER] + 2, P_REGISTER, target + 1);
  }

  /** Subroutine linkage: after an unconditional JMD to t (t not P), an
      unconditional indirect JPD through t returns to the instruction after
      the JMD, provided the mark at t was left alone in between. */
  lemma {:induction false} JumpAndMarkReturns(m: Mem, t: Byte, cond: Condition, later: Mem, cond': Condition)
    requires t != P_REGISTER
    requires later[t] == ExecuteJump(m, true, Unconditional, cond, false, t)[t]
    ensures ExecuteJump(later, false, Unconditional, cond', true, t)[P_REGISTER] == m[P_REGISTER] + 2
  {
    JumpAndMarkTaken(m, Unconditional, cond, false, t);
  }

  /** SKP0/SKP1 change only P: by 4 when bit b of the cell is 0 (resp. 1),
      by 2 otherwise. */
  lemma SkipEffect(m: Mem, onOne: bool, b: BitIndex, operand: Byte)
    ensures var m' := ExecuteSkip(m, onOne, b, operand);
      && m'[P_REGISTER] == m[P_REGISTER] + (if BitSet(m[operand], b) == onOne then 4 else 2)
      && forall a: Byte :: a != P_REGISTER ==> m'[a] == m[a]
  {
  }

  /** SET on a cell other than P writes SetBitOf into that cell (so, by
      SetBitOfChangesOneBit, only bit b changes), then moves P by 2. */
  lemma SetEffect(m: Mem, toOne: bool, b: BitIndex, operand: Byte)
    requires operand != P_REGISTER
    ensures Execute(m, SetBit(toOne, b, operand))[operand] == SetBitOf(m[operand], toOne, b)
    ensures Execute(m, SetBit(toOne, b, operand))[P_REGISTER] == m[P_REGISTER] + 2
    ensures forall a: Byte :: a != P_REGISTER && a != operand ==>
      Execute(m, SetBit(toOne, b, operand))[a] == m[a]
  {
    var v := SetBitOf(m[operand], toOne, b);
    ExecuteSetCase(m, toOne, b, operand);
    WriteTwice(m, operand, v, P_REGISTER, m[P_REGISTER] + 2);
  }

  /** SET bit b to 1 then SKP1 on bit b (or SET to 0 then SKP0) always
      skips, when the cell is not P itself: a SET on P is followed by the
      move of P by 2, which can clear the bit again (SetOnPThenSkip). */
  lemma {:induction false} SetThenSkip(m: Mem, value: bool, b: BitIndex, operand: Byte)
    requires operand != P_REGISTER
    ensures var m' := Execute(m, SetBit(value, b, operand));
      Execute(m', Skip(value, b, operand)) == m'[P_REGISTER := m'[P_REGISTER] + 4]
  {
    var m' := Execute(m, SetBit(value, b, operand));
    SetBitOfChangesOneBit(m[operand], value, b);
    assert m'[operand] == SetBitOf(m[operand], value, b);
  }

  /** The exclusion in SetThenSkip is needed: with P = 2, SET bit 1 of P to 1
      leaves P = 2 and then moves it to 4, whose bit 1 is clear, so the SKP1
      on bit 1 of P does not skip and P ends at 6 rather than 8. */
  lemma SetOnPThenSkip(m: Mem)
    requires m[P_REGISTER] == 2
    ensures Execute(m, SetBit(true, 1, P_REGISTER))[P_REGISTER] == 4
    ensures Execute(Execute(m, SetBit(true, 1, P_REGISTER)), Skip(true, 1, P_REGISTER))[P_REGISTER] == 6
  {
  }

  /** SHIFT/ROTATE of A or B: the register gets the step repeated `places`
      times, P moves by 1, and nothing else changes. */
  lemma ShiftRotateEffect(m: Mem, op: ShiftOp, r: Register, places: Places)
    requires r != X
    ensures var m' := Execute(m, ShiftRotate(op, r, places));
      && m'[RegisterAddress(r)] == Repeat(op, m[RegisterAddress(r)], places)
      && m'[P_REGISTER] == m[P_REGISTER] + 1
      && forall a: Byte :: a != P_REGISTER && a != RegisterAddress(r) ==> m'[a] == m[a]
  {
  }

  // ---------------------------------------------------------------------
  // Case equations, stated once here so that the in-place methods of the
  // Kenbak class need not unfold the definitions above themselves.

  lemma FetchedBytes(m: Mem, first: Byte, second: Byte)
    requires first == m[m[P_REGISTER]]
    requires second == if IsOneByte(first) then 0 else m[m[P_REGISTER] + 1]
    ensures FetchAndExecute(m) == ExecuteFetched(m, first, second)
  {
  }

  lemma ExecuteShiftRotateCases(m: Mem, op: ShiftOp, r: Register, places: Places)
    ensures r == X ==> ExecuteShiftRotate(m, op, r, places) == m
    ensures r != X ==>
      ExecuteShiftRotate(m, op, r, places) ==
      m[RegisterAddress(r) := Repeat(op, m[RegisterAddress(r)], places)][P_REGISTER := m[P_REGISTER] + 1]
  {
  }

  lemma ExecuteSetCase(m: Mem, toOne: bool, b: BitIndex, operand: Byte)
    requires operand != P_REGISTER
    ensures Execute(m, SetBit(toOne, b, operand)) ==
      m[operand := SetBitOf(m[operand], toOne, b)][P_REGISTER := m[P_REGISTER] + 2]
  {
    var v := SetBitOf(m[operand], toOne, b);
    DistinctCells(operand, P_REGISTER);
    assert m[operand := v][P_REGISTER] == m[P_REGISTER];
  }

  lemma ExecuteCases(m: Mem, i: Instruction)
    ensures (i.Arith? || i.Logic? || i.SetBit?) ==> Execute(m, i) == AdvanceP(DataEffect(m, i), 2)
    ensures i.Jump? ==> Execute(m, i) == ExecuteJump(m, i.mark, i.test, i.cond, i.indirect, i.operand)
    ensures i.Skip? ==> Execute(m, i) == ExecuteSkip(m, i.onOne, i.bit, i.operand)
    ensures i.ShiftRotate? ==> Execute(m, i) == ExecuteShiftRotate(m, i.sop, i.reg, i.places)
    ensures (i.Noop? || i.Halt?) ==> Execute(m, i) == AdvanceP(m, 1)
  {
  }

  // ---------------------------------------------------------------------
  // Worked examples

  /** LOAD A from memory (0x14, 0x05) with 0x2A at address 5. */
  lemma LoadExample(m: Mem)
    requires m[P_REGISTER] == 0x10 && m[0x10] == 0x14 && m[0x11] == 0x05 && m[5] == 0x2A
    ensures Decode(0x14, 0x05) == Some(Arith(Load, A, Memory, 5))
    ensures FetchAndExecute(m).mem == m[A_REGISTER := 0x2A][P_REGISTER := 0x12]
  {
  }

  /** ADD A immediate 1 to 0x7F: 0x80 with overflow and no carry. */
  lemma AddOverflowExample(m: Mem)
    requires m[A_REGISTER] == 0x7F
    ensures var m' := Execute(m, Arith(Add, A, Immediate, 1));
      m'[A_REGISTER] == 0x80 && m'[A_OVERFLOW] == 1
  {
  }

  /** JMD unconditional direct to 0x10 from P = 0x20: the mark 0x22 lands at
      0x10 and execution continues at 0x11. */
  lemma JumpAndMarkExample(m: Mem)
    requires m[P_REGISTER] == 0x20 && m[0x20] == 0xF4 && m[0x21] == 0x10
    ensures FetchAndExecute(m).mem == m[0x10 := 0x22][P_REGISTER := 0x11]
  {
  }
}
