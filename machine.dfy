/** The emulator's state and its in-place operations (MainScene in
    src/scenes/MainScene.ts): a 256-cell memory array holding the registers,
    plus the console fields. Each execute path changes the array cell by
    cell as the source does and is proved to leave the memory the pure
    semantics in semantics.dfy describes. */
module Machine {
  import opened MemoryMap
  import opened Instructions
  import opened Alu
  import opened Decoder
  import opened Semantics

  /** What the eight data lamps show. */
  datatype DisplayMode = InputMode | AddressMode | MemoryMode | OutputMode

  class Kenbak {
    const mem: array<Byte>
    var isRunning: bool
    /** The console's address register, used by READ and STORE. */
    var addressRegister: Byte
    var displayMode: DisplayMode
    /** The byte the lamps show in MEMORY mode. */
    var lastMemoryRead: Byte

    ghost predicate Valid()
    {
      mem.Length == 256
    }

    /** The memory contents as a value. */
    function Memory(): Mem
      reads mem
      requires Valid()
    {
      mem[..]
    }

    /** A fresh machine: memory all zero, halted, showing the output register. */
    constructor()
      ensures Valid() && fresh(mem)
      ensures Memory() == seq(256, _ => 0)
      ensures !isRunning && addressRegister == 0 && displayMode == OutputMode && lastMemoryRead == 0
    {
      mem := new Byte[256](_ => 0);
      isRunning := false;
      addressRegister := 0;
      displayMode := OutputMode;
      lastMemoryRead := 0;
    }

    /** writeMemory: one cell changes. */
    method WriteMemory(address: Byte, value: Byte)
      requires Valid()
      modifies mem
      ensures Memory() == old(Memory())[address := value]
    {
      mem[address] := value;
    }

    /** setOverflowCarry: the register's flag cell gets overflow in bit 0
        and carry in bit 1. */
    method SetOverflowCarry(r: Register, overflow: bool, carry: bool)
      requires Valid()
      modifies mem
      ensures Memory() == old(Memory())[OverflowAddress(r) := FlagCell(overflow, carry)]
    {
      var value: Byte := 0;
      if overflow {
        value := value | 1;
      }
      if carry {
        value := value | 2;
      }
      WriteMemory(OverflowAddress(r), value);
    }

    /** addToRegister. */
    method AddToRegister(r: Register, value: Byte)
      requires Valid()
      modifies mem
      ensures Memory() == Semantics.AddToRegister(old(Memory()), r, value)
    {
      var currentValue := mem[RegisterAddress(r)];
      var result := AddBytes(currentValue, value);
      WriteMemory(RegisterAddress(r), result.sum);
      SetOverflowCarry(r, result.overflow, result.carry);
    }

    /** subtractFromRegister: add the two's-complement negation. */
    method SubtractFromRegister(r: Register, value: Byte)
      requires Valid()
      modifies mem
      ensures Memory() == Semantics.SubtractFromRegister(old(Memory()), r, value)
    {
      AddToRegister(r, Negate(value));
    }

    /** andRegister (on A; the flag cells are left alone). */
    method AndRegister(value: Byte)
      requires Valid()
      modifies mem
      ensures Memory() == old(Memory())[A_REGISTER := old(Memory())[A_REGISTER] & value]
    {
      var result := mem[A_REGISTER] & value;
      WriteMemory(A_REGISTER, result);
    }

    /** orRegister (on A; the flag cells are left alone). */
    method OrRegister(value: Byte)
      requires Valid()
      modifies mem
      ensures Memory() == old(Memory())[A_REGISTER := old(Memory())[A_REGISTER] | value]
    {
      var result := mem[A_REGISTER] | value;
      WriteMemory(A_REGISTER, result);
    }

    /** loadRegister: LOAD. */
    method LoadRegister(r: Register, mode: Mode, operand: Byte)
      requires Valid()
      modifies mem
      ensures Memory() == DataEffect(old(Memory()), Arith(Load, r, mode, operand))
    {
      var value := ResolveOperand(Memory(), mode, operand);
      WriteMemory(RegisterAddress(r), value);
    }

    /** storeRegister: STORE, at the resolved address. */
    method StoreRegister(r: Register, mode: Mode, operand: Byte)
      requires Valid()
      modifies mem
      ensures Memory() == DataEffect(old(Memory()), Arith(Store, r, mode, operand))
    {
      var value := mem[RegisterAddress(r)];
      var targetAddress := ResolveAddress(Memory(), mode, operand);
      WriteMemory(targetAddress, value);
    }

    /** addToRegisterWithMode: ADD. */
    method AddToRegisterWithMode(r: Register, mode: Mode, operand: Byte)
      requires Valid()
      modifies mem
      ensures Memory() == DataEffect(old(Memory()), Arith(Add, r, mode, operand))
    {
      var value := ResolveOperand(Memory(), mode, operand);
      AddToRegister(r, value);
    }

    /** subtractFromRegisterWithMode: SUB. */
    method SubtractFromRegisterWithMode(r: Register, mode: Mode, operand: Byte)
      requires Valid()
      modifies mem
      ensures Memory() == DataEffect(old(Memory()), Arith(Sub, r, mode, operand))
    {
      var value := ResolveOperand(Memory(), mode, operand);
      SubtractFromRegister(r, value);
    }

    /** andRegisterWithMode: AND. */
    method AndRegisterWithMode(mode: Mode, operand: Byte)
      requires Valid()
      modifies mem
      ensures Memory() == DataEffect(old(Memory()), Logic(And, mode, operand))
    {
      var value := ResolveOperand(Memory(), mode, operand);
      AndRegister(value);
    }

    /** orRegisterWithMode: OR. */
    method OrRegisterWithMode(mode: Mode, operand: Byte)
      requires Valid()
      modifies mem
      ensures Memory() == DataEffect(old(Memory()), Logic(Or, mode, operand))
    {
      var value := ResolveOperand(Memory(), mode, operand);
      OrRegister(value);
    }

    /** loadComplementWithMode: LNEG loads 0 - operand into A, flags untouched. */
    method LoadComplementWithMode(mode: Mode, operand: Byte)
      requires Valid()
      modifies mem
      ensures Memory() == DataEffect(old(Memory()), Logic(Lneg, mode, operand))
    {
      var value := ResolveOperand(Memory(), mode, operand);
      var complement := 0 - value;
      WriteMemory(A_REGISTER, complement);
    }

    /** executeJump: JPD and JMD. */
    method ExecuteJump(mark: bool, test: JumpTest, cond: Condition, indirect: bool, operand: Byte)
      requires Valid()
      modifies mem
      ensures Memory() == Semantics.ExecuteJump(old(Memory()), mark, test, cond, indirect, operand)
    {
      var currentP := mem[P_REGISTER];
      var targetAddress := JumpTarget(Memory(), indirect, operand);
      var shouldJump := JumpTaken(Memory(), test, cond);
      if shouldJump {
        if mark {
          WriteMemory(targetAddress, currentP + 2);
          WriteMemory(P_REGISTER, targetAddress + 1);
        } else {
          WriteMemory(P_REGISTER, targetAddress);
        }
      } else {
        WriteMemory(P_REGISTER, currentP + 2);
      }
    }

    /** executeSkip: SKP0 and SKP1. */
    method ExecuteSkip(onOne: bool, b: BitIndex, operand: Byte)
      requires Valid()
      modifies mem
      ensures Memory() == Semantics.ExecuteSkip(old(Memory()), onOne, b, operand)
    {
      var currentP := mem[P_REGISTER];
      var shouldSkip := SkipTaken(Memory(), onOne, b, operand);
      if shouldSkip {
        WriteMemory(P_REGISTER, currentP + 4);
      } else {
        WriteMemory(P_REGISTER, currentP + 2);
      }
    }

    /** executeSet: SET 0 and SET 1 (P is advanced by the caller). */
    method ExecuteSet(toOne: bool, b: BitIndex, operand: Byte)
      requires Valid()
      modifies mem
      ensures Memory() == DataEffect(old(Memory()), SetBit(toOne, b, operand))
    {
      var memoryValue := mem[operand];
      var newValue := SetBitOf(memoryValue, toOne, b);
      WriteMemory(operand, newValue);
    }

    /** The loop of executeShiftRotate: the one-place step, `places` times. */
    static method RepeatStep(op: ShiftOp, currentValue: Byte, places: Places) returns (newValue: Byte)
      ensures newValue == Repeat(op, currentValue, places)
    {
      newValue := currentValue;
      var i := 0;
      while i < places
        invariant 0 <= i <= places
        invariant newValue == Repeat(op, currentValue, i)
      {
        newValue := ShiftStep(op, newValue);
        i := i + 1;
      }
    }

    /** executeShiftRotate: the one-place step applied `places` times to A
        or B, then P + 1. */
    method ExecuteShiftRotate(op: ShiftOp, r: Register, places: Places)
      requires Valid()
      modifies mem
      ensures Memory() == Semantics.ExecuteShiftRotate(old(Memory()), op, r, places)
    {
      ExecuteShiftRotateCases(Memory(), op, r, places);
      var currentP := mem[P_REGISTER];
      if r == X { // neither A nor B
        return;
      }
      var currentValue := mem[RegisterAddress(r)];
      var newValue := RepeatStep(op, currentValue, places);
      WriteMemory(RegisterAddress(r), newValue);
      WriteMemory(P_REGISTER, currentP + 1);
    }

    /** executeControlInstruction: NOOP, or HALT, which stops the machine
        and shows the output register; P + 1 either way. */
    method ExecuteControlInstruction(halt: bool)
      requires Valid()
      modifies this, mem
      ensures Memory() == AdvanceP(old(Memory()), 1)
      ensures halt ==> !isRunning && displayMode == OutputMode
      ensures !halt ==> isRunning == old(isRunning) && displayMode == old(displayMode)
      ensures addressRegister == old(addressRegister) && lastMemoryRead == old(lastMemoryRead)
    {
      var currentP := mem[P_REGISTER];
      if halt {
        isRunning := false;
        displayMode := OutputMode;
      }
      WriteMemory(P_REGISTER, currentP + 1);
    }

    /** The data-instruction cases of executeInstruction's switch: ADD,
        SUB, LOAD, STORE, AND, OR, LNEG and SET, before P moves. */
    method ExecuteDataEffect(i: Instruction)
      requires Valid()
      requires i.Arith? || i.Logic? || i.SetBit?
      modifies mem
      ensures Memory() == DataEffect(old(Memory()), i)
    {
      match i {
        case Arith(op, r, mode, operand) =>
          match op {
            case Add => AddToRegisterWithMode(r, mode, operand);
            case Sub => SubtractFromRegisterWithMode(r, mode, operand);
            case Load => LoadRegister(r, mode, operand);
            case Store => StoreRegister(r, mode, operand);
          }
        case Logic(op, mode, operand) =>
          match op {
            case And => AndRegisterWithMode(mode, operand);
            case Or => OrRegisterWithMode(mode, operand);
            case Lneg => LoadComplementWithMode(mode, operand);
          }
        case SetBit(toOne, b, operand) =>
          ExecuteSet(toOne, b, operand);
      }
    }

    /** A data instruction or SET: its effect, then P moves by 2 from
        wherever the effect left it. */
    method ExecuteDataInstruction(i: Instruction)
      requires Valid()
      requires i.Arith? || i.Logic? || i.SetBit?
      modifies mem
      ensures Memory() == AdvanceP(DataEffect(old(Memory()), i), 2)
    {
      ExecuteDataEffect(i);
      var currentP := mem[P_REGISTER];
      WriteMemory(P_REGISTER, currentP + 2);
    }

    /** executeInstruction for everything but NOOP and HALT: these change
        only the memory. Data instructions and SET have their effect and
        then move P by 2, reading P afresh; jumps, skips and shifts move P
        themselves. */
    method ExecuteMemoryInstruction(i: Instruction)
      requires Valid()
      requires !i.Noop? && !i.Halt?
      modifies mem
      ensures Memory() == Execute(old(Memory()), i)
    {
      ExecuteCases(Memory(), i);
      if i.Arith? || i.Logic? || i.SetBit? {
        ExecuteDataInstruction(i);
      } else {
        match i {
          case Jump(mark, test, cond, indirect, operand) =>
            ExecuteJump(mark, test, cond, indirect, operand);
          case Skip(onOne, b, operand) =>
            ExecuteSkip(onOne, b, operand);
          case ShiftRotate(op, r, places) =>
            ExecuteShiftRotate(op, r, places);
        }
      }
    }

    /** executeInstruction: NOOP and HALT go to executeControlInstruction,
        which alone touches the run state. */
    method ExecuteInstruction(i: Instruction)
      requires Valid()
      modifies this, mem
      ensures Memory() == Execute(old(Memory()), i)
      ensures i.Halt? ==> !isRunning && displayMode == OutputMode
      ensures !i.Halt? ==> isRunning == old(isRunning) && displayMode == old(displayMode)
      ensures addressRegister == old(addressRegister) && lastMemoryRead == old(lastMemoryRead)
    {
      if i.Noop? || i.Halt? {
        ExecuteCases(Memory(), i);
        ExecuteControlInstruction(i.Halt?);
      } else {
        ExecuteMemoryInstruction(i);
      }
    }

    /** The second half of fetchAndExecute, given the fetched bytes: decode
        and execute, or, when decoding fails, move P past the instruction's
        assumed width. */
    method ExecuteFetched(firstByte: Byte, secondByte: Byte)
      requires Valid()
      modifies this, mem
      ensures Memory() == Semantics.ExecuteFetched(old(Memory()), firstByte, secondByte).mem
      ensures Semantics.ExecuteFetched(old(Memory()), firstByte, secondByte).halted ==>
        !isRunning && displayMode == OutputMode
      ensures !Semantics.ExecuteFetched(old(Memory()), firstByte, secondByte).halted ==>
        isRunning == old(isRunning) && displayMode == old(displayMode)
      ensures addressRegister == old(addressRegister) && lastMemoryRead == old(lastMemoryRead)
    {
      var instruction := Decode(firstByte, secondByte);
      if instruction.Some? {
        ExecuteInstruction(instruction.value);
      } else {
        var pc := mem[P_REGISTER];
        var increment: Byte := if IsOneByte(firstByte) then 1 else 2;
        WriteMemory(P_REGISTER, pc + increment);
      }
    }

    /** fetchAndExecute: one instruction at P. */
    method FetchAndExecute()
      requires Valid()
      modifies this, mem
      ensures Memory() == Semantics.FetchAndExecute(old(Memory())).mem
      ensures Semantics.FetchAndExecute(old(Memory())).halted ==> !isRunning && displayMode == OutputMode
      ensures !Semantics.FetchAndExecute(old(Memory())).halted ==>
        isRunning == old(isRunning) && displayMode == old(displayMode)
      ensures addressRegister == old(addressRegister) && lastMemoryRead == old(lastMemoryRead)
    {
      var pc := mem[P_REGISTER];
      var firstByte := mem[pc];
      var secondByte: Byte := if IsOneByte(firstByte) then 0 else mem[pc + 1];
      FetchedBytes(Memory(), firstByte, secondByte);
      ExecuteFetched(firstByte, secondByte);
    }

    /** executeCycle: one instruction when running, nothing otherwise. */
    method ExecuteCycle()
      requires Valid()
      modifies this, mem
      ensures !old(isRunning) ==> Memory() == old(Memory()) && unchanged(this)
      ensures old(isRunning) ==>
        && Memory() == Semantics.FetchAndExecute(old(Memory())).mem
        && isRunning == !Semantics.FetchAndExecute(old(Memory())).halted
        && (isRunning ==> displayMode == old(displayMode))
        && (!isRunning ==> displayMode == OutputMode)
      ensures addressRegister == old(addressRegister) && lastMemoryRead == old(lastMemoryRead)
    {
      if isRunning {
        FetchAndExecute();
      }
    }

    // -------------------------------------------------------------------
    // Console operations

    /** CLEAR: the input register becomes 0 and the lamps show it. */
    method ClearInput()
      requires Valid()
      modifies this, mem
      ensures Memory() == old(Memory())[INPUT_REGISTER := 0]
      ensures displayMode == InputMode
      ensures isRunning == old(isRunning) && addressRegister == old(addressRegister)
      ensures lastMemoryRead == old(lastMemoryRead)
    {
      WriteMemory(INPUT_REGISTER, 0);
      displayMode := InputMode;
    }

    /** A data button: bit b of the input register flips. */
    method SetInputBit(b: BitIndex)
      requires Valid()
      modifies this, mem
      ensures Memory() == old(Memory())[INPUT_REGISTER := ToggleBit(old(Memory())[INPUT_REGISTER], b)]
      ensures displayMode == InputMode
      ensures isRunning == old(isRunning) && addressRegister == old(addressRegister)
      ensures lastMemoryRead == old(lastMemoryRead)
    {
      var currentValue := mem[INPUT_REGISTER];
      var newValue := currentValue ^ BitMask(b);
      WriteMemory(INPUT_REGISTER, newValue);
      displayMode := InputMode;
    }

    /** ADDRESS DISPLAY: only the display mode changes. */
    method DisplayAddress()
      requires Valid()
      modifies this
      ensures displayMode == AddressMode
      ensures isRunning == old(isRunning) && addressRegister == old(addressRegister)
      ensures lastMemoryRead == old(lastMemoryRead)
    {
      displayMode := AddressMode;
    }

    /** ADDRESS SET: the address register takes the input register. */
    method SetAddress()
      requires Valid()
      modifies this
      ensures addressRegister == Memory()[INPUT_REGISTER]
      ensures displayMode == AddressMode
      ensures isRunning == old(isRunning) && lastMemoryRead == old(lastMemoryRead)
    {
      addressRegister := mem[INPUT_REGISTER];
      displayMode := AddressMode;
    }

    /** MEMORY READ: refused while running; otherwise shows the cell at
        the address register and moves it on by one (wrapping at 256). */
    method ReadMemoryOperation()
      requires Valid()
      modifies this
      ensures old(isRunning) ==> unchanged(this)
      ensures !old(isRunning) ==>
        && lastMemoryRead == Memory()[old(addressRegister)]
        && addressRegister == old(addressRegister) + 1
        && displayMode == MemoryMode
        && !isRunning
    {
      if isRunning {
        return;
      }
      lastMemoryRead := mem[addressRegister];
      displayMode := MemoryMode;
      addressRegister := addressRegister + 1;
    }

    /** MEMORY STORE: refused while running; otherwise copies the input
        register into the cell at the address register and moves it on. */
    method StoreMemory()
      requires Valid()
      modifies this, mem
      ensures old(isRunning) ==> unchanged(this) && Memory() == old(Memory())
      ensures !old(isRunning) ==>
        && Memory() == old(Memory())[old(addressRegister) := old(Memory())[INPUT_REGISTER]]
        && lastMemoryRead == old(Memory())[INPUT_REGISTER]
        && addressRegister == old(addressRegister) + 1
        && displayMode == MemoryMode
        && !isRunning
    {
      if isRunning {
        return;
      }
      var valueToStore := mem[INPUT_REGISTER];
      WriteMemory(addressRegister, valueToStore);
      displayMode := MemoryMode;
      lastMemoryRead := valueToStore;
      addressRegister := addressRegister + 1;
    }

    /** START: no effect when already running; otherwise runs and shows the
        output register. */
    method StartExecution()
      requires Valid()
      modifies this
      ensures old(isRunning) ==> unchanged(this)
      ensures !old(isRunning) ==> isRunning && displayMode == OutputMode
      ensures addressRegister == old(addressRegister) && lastMemoryRead == old(lastMemoryRead)
    {
      if isRunning {
        return;
      }
      isRunning := true;
      displayMode := OutputMode;
    }

    /** STOP: no effect when already stopped; otherwise stops and shows the
        output register. */
    method StopExecution()
      requires Valid()
      modifies this
      ensures !old(isRunning) ==> unchanged(this)
      ensures old(isRunning) ==> !isRunning && displayMode == OutputMode
      ensures addressRegister == old(addressRegister) && lastMemoryRead == old(lastMemoryRead)
    {
      if !isRunning {
        return;
      }
      isRunning := false;
      displayMode := OutputMode;
    }
  }
}
