# KENBAK-1 emulator core in Dafny

This project models the emulator core of the KENBAK-1 8-bit machine. In the
original program that core is the `MainScene` class in
`src/scenes/MainScene.ts`. The model keeps the source's split between its
pure parts and its in-place parts:

- `memory_map.dfy` (module `MemoryMap`): the 256-byte memory. It fixes the
  addresses of A, B, X and P (0-3), of the output register (128), of the
  overflow/carry cells (129-131) and of the input register (255). Registers
  are memory cells, not separate storage. Cells are `bv8`, so all byte
  arithmetic wraps modulo 256, as the source's `& 0xFF` does.
- `instructions.dfy` (module `Instructions`): the decoded instruction, with
  `Option` in place of the source's `null`.
- `decoder.dfy` (module `Decoder`): `decodeAddressingMode`, `decodeRegister`
  and `decodeInstruction`. The rules are tried in the source's order, quirks
  included:
  - the first rule claims every byte with bit 5 clear and a valid mode, so
    AND, OR and LNEG are never produced;
  - the jump rule answers None for every byte with bit 5 set and bits 2-0 at
    most 010.
- `alu.dfy` (module `Alu`): addition with overflow and carry, negation, the
  flag cell, branch conditions, and the one-place shift and rotate step.
- `semantics.dfy` (module `Semantics`): what each instruction does, and what
  one fetch-decode-execute does, as pure functions from the memory before to
  the memory after. The properties of the instruction set are proved here.
- `machine.dfy` (module `Machine`): the class `Kenbak`. It holds the memory
  as an array and the console fields `isRunning`, `addressRegister`,
  `displayMode` and `lastMemoryRead`. Its methods change the array cell by
  cell, as the source does. The execute paths are proved to leave exactly
  the memory that the matching `Semantics` function describes. The memory
  helpers and console operations state the new memory directly as an update
  of the old one. Every method states which console fields it sets and which
  it keeps.

The comment in `resolveAddress` (src/scenes/MainScene.ts:576) says that
STORE IMMEDIATE stores into the instruction's own second byte. The code on
the next line returns the operand byte as the address, so the store goes to
the cell that the operand byte names, exactly as STORE MEMORY does. The model
follows the code (`Semantics.StoreImmediateIsStoreMemory`).

`getRegister` and `setRegister` (src/scenes/MainScene.ts:452-458) are reads
and writes of the register's fixed address. They appear in the model as
indexing into the memory at the `MemoryMap` constants.

## Model

| member | source | states |
|---|---|---|
| MemoryMap.RegisterAddress | src/scenes/MainScene.ts:19-34 | A, B and X live at addresses below P's address 3 |
| MemoryMap.OverflowAddress | src/scenes/MainScene.ts:19-34 | each register's flag cell is its address plus 129, in the range 129-131 |
| MemoryMap.ToggleBit | src/scenes/MainScene.ts:1183-1185 | XOR with `1 << b` flips bit b and leaves every other bit alone |
| MemoryMap.ToggleTwice | src/scenes/MainScene.ts:1183-1185 | pressing the same data button twice restores the input byte |
| Alu.AddBytes | src/scenes/MainScene.ts:431-442 | the sum is the addition modulo 256; carry holds exactly when the true sum exceeds 255; overflow holds exactly when both operands have one sign and the result the other |
| Alu.AddOverflowIsSignedOverflow | src/scenes/MainScene.ts:431-442 | the XOR-and-mask overflow bit is exactly "the signed sum does not fit in a signed byte" |
| Alu.Signed | src/scenes/MainScene.ts:520-537 | the two's-complement reading of a byte lies in -128..127 |
| Alu.Negate | src/scenes/MainScene.ts:444-447 | the negation used by SUB is the additive inverse modulo 256 |
| Alu.SubtractionFlags | src/scenes/MainScene.ts:444-447 | adding the negation leaves current - value, with carry exactly when value is non-zero and not above current (no borrow) |
| Alu.FlagCell | src/scenes/MainScene.ts:416-428 | the flag cell is below 4, bit 0 is overflow and bit 1 is carry |
| Alu.TestCondition | src/scenes/MainScene.ts:520-537 | testCondition on the tested register's value; its meaning as a signed comparison is stated by ConditionsAreSignedComparisons |
| Alu.ConditionsAreSignedComparisons | src/scenes/MainScene.ts:520-537 | each of the five jump conditions compares the register, read as a signed byte, with zero |
| Alu.ShiftStep | src/scenes/MainScene.ts:1101-1120 | one place: SFTL moves bits 6-0 up and clears bit 0; SFTR moves bits 7-1 down and keeps bit 7; ROTL and ROTR do the same but carry the bit shifted out (bit 7 resp. bit 0) round to the other end |
| Alu.ShiftLeftStep | src/scenes/MainScene.ts:1102-1104 | one place of SFTL clears bit 0 and doubles the value modulo 256 |
| Alu.ShiftRightStep | src/scenes/MainScene.ts:1106-1109 | one place of SFTR keeps bit 7 and halves the signed value, rounding down |
| Alu.RotationsInverse | src/scenes/MainScene.ts:1111-1119 | one-place ROTL and ROTR undo each other |
| Alu.ShiftLeftMultiplies | src/scenes/MainScene.ts:1096-1120 | SFTL by n places multiplies by 2^n modulo 256 |
| Alu.ShiftRightKeepsSign | src/scenes/MainScene.ts:1096-1120 | SFTR by any number of places keeps the sign bit |
| Alu.RotateRightUndoesRotateLeft | src/scenes/MainScene.ts:1096-1120 | ROTR by n places undoes ROTL by n places |
| Alu.HalfTurn | src/scenes/MainScene.ts:1096-1120 | a rotation by four places is the same in either direction |
| Decoder.DecodeAddressingMode | src/scenes/MainScene.ts:646-663 | bits 2-0 = 011..111 give the mode whose code they are (IMMEDIATE, MEMORY, INDIRECT, INDEXED, INDIRECT_INDEXED); 000-010 fall back to MEMORY |
| Decoder.DecodeRegister | src/scenes/MainScene.ts:665-678 | bits 7-6 = 00, 01, 10 give the register with that code (A, B, X); 11 falls back to A |
| Decoder.Decode | src/scenes/MainScene.ts:680-886 | decodeInstruction with its rules in the source's order; what it yields is stated by DecodeFailsExactly, DataInstructionsClaimBit5Clear, LogicEncodingsDecodeAsArith, ControlEncodings, DecodeImage and DecodeEncode |
| Decoder.DecodeFailsExactly | src/scenes/MainScene.ts:680-886 | decoding returns None exactly when bit 5 is 1 and bits 2-0 are at most 010 |
| Decoder.DecodedWidth | src/scenes/MainScene.ts:965-976 | the fetch width (one byte for bits 2-0 = 000 or 001) agrees with the width of the decoded instruction |
| Decoder.DecodeUsesSecondByteOnlyAsOperand | src/scenes/MainScene.ts:680-886 | the second byte affects neither success nor the kind of instruction; two-byte instructions carry it as their operand |
| Decoder.DataInstructionsClaimBit5Clear | src/scenes/MainScene.ts:646-723 | bit 5 clear with mode bits 011-111 always decodes to ADD, SUB, LOAD or STORE: opcode from bits 4-3, register from bits 7-6 (11 meaning A), mode from bits 2-0 |
| Decoder.LogicEncodingsDecodeAsArith | src/scenes/MainScene.ts:687-756 | the AND, OR and LNEG encodings decode as LOAD, ADD and STORE of A |
| Decoder.ControlEncodings | src/scenes/MainScene.ts:863-883 | every first byte with bit 5 clear and bits 2-0 = 000 is NOOP when bit 7 is set and HALT otherwise, whatever bits 6, 4 and 3 hold |
| Decoder.DecodeImage | src/scenes/MainScene.ts:680-886 | decoding never yields AND/OR/LNEG, SET/SKIP on bits 4-7, or a shift of B |
| Decoder.DecodeEncode | src/scenes/MainScene.ts:680-886 | every instruction outside that excluded set is decoded back from its encoding |
| Semantics.ResolveAddress | src/scenes/MainScene.ts:573-601 | resolveAddress, wrapping modulo 256; StoreImmediateIsStoreMemory and ResolveOperand's contract state its relation to the operand and to the value read |
| Semantics.ResolveOperand | src/scenes/MainScene.ts:540-601 | IMMEDIATE yields the operand byte; every other mode yields the cell at resolveAddress |
| Semantics.StoreImmediateIsStoreMemory | src/scenes/MainScene.ts:573-601 | resolveAddress gives the operand byte itself for both IMMEDIATE and MEMORY |
| Semantics.AddToRegister | src/scenes/MainScene.ts:431-442 | the register gets old + value modulo 256; flag bit 0 is signed overflow and bit 1 is carry; no other cell changes |
| Semantics.SubtractFromRegister | src/scenes/MainScene.ts:444-447 | subtractFromRegister as ADD of the negation; SubtractLeavesDifference and SubtractCarryIsNoBorrow state the difference and the no-borrow carry |
| Semantics.SubtractLeavesDifference | src/scenes/MainScene.ts:444-447 | SUB leaves register - value in the register |
| Semantics.SubtractCarryIsNoBorrow | src/scenes/MainScene.ts:444-447 | the carry SUB leaves is set exactly when value is non-zero and not above the register |
| Semantics.SetBitOf | src/scenes/MainScene.ts:1062-1082 | the byte SET writes; SetBitOfChangesOneBit states that only bit b changes, to the chosen value |
| Semantics.SetBitOfChangesOneBit | src/scenes/MainScene.ts:1062-1082 | SET forces bit b to the chosen value and leaves the other seven bits alone |
| Semantics.ExecuteJump | src/scenes/MainScene.ts:990-1029 | executeJump; JumpNotTaken, JumpTakenSetsP, JumpAndMarkTaken and JumpAndMarkReturns state its effect in each case |
| Semantics.ExecuteSkip | src/scenes/MainScene.ts:1032-1059 | executeSkip; SkipEffect states that only P moves, by 4 or 2 |
| Semantics.ExecuteShiftRotate | src/scenes/MainScene.ts:1085-1128 | executeShiftRotate, including the early return for a register other than A and B; ShiftRotateEffect states its effect |
| Semantics.Execute | src/scenes/MainScene.ts:889-962 | executeInstruction: the effect of each instruction and its P step (P re-read after the effect for data instructions and SET); DataInstructionAdvancesP, SelfModifiedP, FlagCellsUntouched, SetEffect and ShiftRotateEffect state its properties |
| Semantics.ExecuteFetched | src/scenes/MainScene.ts:978-986 | decode the fetched bytes, then execute, or move P by the assumed width when decoding fails |
| Semantics.FetchAndExecute | src/scenes/MainScene.ts:965-987 | fetchAndExecute: the second byte is fetched at P + 1 modulo 256 only for two-byte encodings; UndecodableInstructionIsSkipped and HaltsExactlyOnHaltEncoding state its failure and halt behaviour |
| Semantics.UndecodableInstructionIsSkipped | src/scenes/MainScene.ts:965-987 | on a failed decode, nothing changes except P, which moves by 1 (bits 2-0 = 000/001) or by 2 (010), and the machine does not halt |
| Semantics.HaltsExactlyOnHaltEncoding | src/scenes/MainScene.ts:863-886 | a step halts exactly when the fetched byte has bits 7, 5, 2, 1 and 0 clear |
| Semantics.DataInstructionAdvancesP | src/scenes/MainScene.ts:889-962 | ADD, SUB, LOAD, AND, OR and LNEG move P by exactly 2 |
| Semantics.SelfModifiedP | src/scenes/MainScene.ts:959-961 | a STORE or SET aimed at P is seen by the P step: the new P is the value written plus 2 |
| Semantics.FlagCellsUntouched | src/scenes/MainScene.ts:505-515 | AND, OR, LNEG and shift/rotate leave the flag cells 129-131 alone |
| Semantics.JumpNotTaken | src/scenes/MainScene.ts:1026-1028 | a jump not taken only moves P by 2 |
| Semantics.JumpTakenSetsP | src/scenes/MainScene.ts:990-1025 | a taken JPD sets P to the target (the operand, or the cell it names) and nothing else |
| Semantics.JumpAndMarkTaken | src/scenes/MainScene.ts:990-1025 | a taken JMD stores old P + 2 at the target and sets P to target + 1; nothing else changes |
| Semantics.JumpAndMarkReturns | src/scenes/MainScene.ts:990-1029 | after JMD to t, an indirect JPD through t returns to the instruction after the JMD, provided the mark at t was left alone |
| Semantics.SkipEffect | src/scenes/MainScene.ts:1032-1059 | SKP0/SKP1 only move P: by 4 when bit b of the cell is 0 (resp. 1), otherwise by 2 |
| Semantics.SetEffect | src/scenes/MainScene.ts:1062-1082 | SET on a cell other than P writes that cell with bit b set or cleared, then moves P by 2; nothing else changes |
| Semantics.SetThenSkip | src/scenes/MainScene.ts:1032-1082 | SET of bit b to v followed by a skip on bit b = v always skips |
| Semantics.SetOnPThenSkip | src/scenes/MainScene.ts:1032-1082 | SET of a bit of P is followed by the move of P by 2: with P = 2, SET bit 1 then SKP1 on bit 1 of P leaves P at 4 and then 6, not skipping, so SetThenSkip needs its cell to differ from P |
| Semantics.ShiftRotateEffect | src/scenes/MainScene.ts:1085-1128 | shift/rotate of A or B applies the step `places` times to that register and moves P by 1; nothing else changes |
| Semantics.LoadExample | src/scenes/MainScene.ts:965-987 | LOAD A from memory (0x14, 0x05) loads the cell and moves P by 2 |
| Semantics.AddOverflowExample | src/scenes/MainScene.ts:431-442 | ADD A immediate 1 to 0x7F gives 0x80 with overflow set and carry clear |
| Semantics.JumpAndMarkExample | src/scenes/MainScene.ts:990-1029 | an unconditional JMD from P = 0x20 to 0x10 leaves the mark 0x22 at 0x10 and P = 0x11 |
| Machine.Kenbak.constructor | src/scenes/MainScene.ts:40-46 | a new machine has all-zero memory, is stopped, has address register 0 and shows the output register |
| Machine.Kenbak.WriteMemory | src/scenes/MainScene.ts:401-411 | exactly one cell changes |
| Machine.Kenbak.SetOverflowCarry | src/scenes/MainScene.ts:423-428 | the register's flag cell gets FlagCell(overflow, carry) and nothing else changes |
| Machine.Kenbak.AddToRegister | src/scenes/MainScene.ts:431-442 | the memory becomes Semantics.AddToRegister of the old memory |
| Machine.Kenbak.SubtractFromRegister | src/scenes/MainScene.ts:444-447 | the memory becomes Semantics.SubtractFromRegister of the old memory |
| Machine.Kenbak.AndRegister | src/scenes/MainScene.ts:505-509 | only A changes, to A AND value |
| Machine.Kenbak.OrRegister | src/scenes/MainScene.ts:511-515 | only A changes, to A OR value |
| Machine.Kenbak.LoadRegister | src/scenes/MainScene.ts:604-607 | the register gets the resolved operand |
| Machine.Kenbak.StoreRegister | src/scenes/MainScene.ts:609-613 | the cell at the resolved address gets the register |
| Machine.Kenbak.AddToRegisterWithMode | src/scenes/MainScene.ts:615-618 | ADD of the resolved operand |
| Machine.Kenbak.SubtractFromRegisterWithMode | src/scenes/MainScene.ts:620-623 | SUB of the resolved operand |
| Machine.Kenbak.AndRegisterWithMode | src/scenes/MainScene.ts:625-628 | AND of the resolved operand into A |
| Machine.Kenbak.OrRegisterWithMode | src/scenes/MainScene.ts:630-633 | OR of the resolved operand into A |
| Machine.Kenbak.LoadComplementWithMode | src/scenes/MainScene.ts:635-643 | A gets the negation of the resolved operand; the flag cells are untouched |
| Machine.Kenbak.ExecuteJump | src/scenes/MainScene.ts:990-1029 | the memory becomes Semantics.ExecuteJump of the old memory |
| Machine.Kenbak.ExecuteSkip | src/scenes/MainScene.ts:1032-1059 | the memory becomes Semantics.ExecuteSkip of the old memory |
| Machine.Kenbak.ExecuteSet | src/scenes/MainScene.ts:1062-1082 | the cell gets its bit b set or cleared (P is moved by the caller) |
| Machine.Kenbak.RepeatStep | src/scenes/MainScene.ts:1096-1120 | the loop returns the one-place step applied `places` times |
| Machine.Kenbak.ExecuteShiftRotate | src/scenes/MainScene.ts:1085-1128 | the memory becomes Semantics.ExecuteShiftRotate of the old memory |
| Machine.Kenbak.ExecuteControlInstruction | src/scenes/MainScene.ts:1131-1151 | P moves by 1; HALT also stops the machine and selects the output display; nothing else changes |
| Machine.Kenbak.ExecuteDataEffect | src/scenes/MainScene.ts:892-942 | the data cases of the switch have the effect Semantics.DataEffect describes |
| Machine.Kenbak.ExecuteDataInstruction | src/scenes/MainScene.ts:892-961 | a data instruction or SET has its effect, then P, read afresh, moves by 2 |
| Machine.Kenbak.ExecuteMemoryInstruction | src/scenes/MainScene.ts:889-962 | every instruction except NOOP and HALT leaves the memory Semantics.Execute describes |
| Machine.Kenbak.ExecuteInstruction | src/scenes/MainScene.ts:889-962 | the memory becomes Semantics.Execute of the old memory; only HALT changes the run state |
| Machine.Kenbak.ExecuteFetched | src/scenes/MainScene.ts:978-986 | decoding and executing the fetched bytes matches Semantics.ExecuteFetched, halt flag included |
| Machine.Kenbak.FetchAndExecute | src/scenes/MainScene.ts:965-987 | the memory becomes Semantics.FetchAndExecute of the old memory; the machine stops exactly on HALT; the address register and last read stay as they were |
| Machine.Kenbak.ExecuteCycle | src/scenes/MainScene.ts:1154-1169 | a stopped machine is left unchanged; a running one performs one step and is still running unless that step halted |
| Machine.Kenbak.ClearInput | src/scenes/MainScene.ts:1174-1180 | the input register becomes 0 and the display shows the input |
| Machine.Kenbak.SetInputBit | src/scenes/MainScene.ts:1183-1191 | bit b of the input register flips and the display shows the input |
| Machine.Kenbak.DisplayAddress | src/scenes/MainScene.ts:1194-1200 | only the display mode changes, to ADDRESS |
| Machine.Kenbak.SetAddress | src/scenes/MainScene.ts:1203-1210 | the address register takes the input register's value |
| Machine.Kenbak.ReadMemoryOperation | src/scenes/MainScene.ts:1213-1226 | refused (nothing changes) while running; otherwise shows the cell at the address register and advances the register modulo 256 |
| Machine.Kenbak.StoreMemory | src/scenes/MainScene.ts:1229-1244 | refused (nothing changes) while running; otherwise copies the input register into the cell at the address register and advances the register modulo 256 |
| Machine.Kenbak.StartExecution | src/scenes/MainScene.ts:1247-1266 | no effect when already running; otherwise starts the machine and shows the output |
| Machine.Kenbak.StopExecution | src/scenes/MainScene.ts:1269-1287 | no effect when already stopped; otherwise stops the machine and shows the output |

## Left out

- Rendering (the LEDs, the memory table, `updateOutputDisplay` and `updateControlLeds`) is UI with no state the core reads back.
- The execution timer that calls `executeCycle` every 250 ms is outside scheduling. One `ExecuteCycle` call stands for one timer tick, and starting or stopping the timer is not modelled.
- `console.log` and `console.warn` diagnostics, and the string formatting around them, are left out.
- The out-of-range guards in `readMemory` and `writeMemory` have no counterpart. Addresses are bytes in the model, so no caller can pass one outside 0-255.
- The unreachable defaults are left out: the `executeInstruction` default case, and the `'UNCONDITIONAL'` register checks in the data cases, since a `Register` cannot be UNCONDITIONAL. The invalid-register early return of `executeShiftRotate` is modelled: `Semantics.ExecuteShiftRotate` leaves the memory unchanged for X, which the decoder never produces.
- The source's memory is a `Uint8Array` of JavaScript numbers. The model stores `bv8` cells, so every write is already reduced modulo 256, as the typed array does.
- Machine.Kenbak.SetInputBit: it takes a bit position 0-7 only. The source accepts any number, but its buttons pass only 0-7.
- Machine.Kenbak.ExecuteFetched: it reads P again on a failed decode, where the source reuses the P it read before decoding. Nothing is written in between, so the value is the same.
- The console's refusal while running is a plain no-op, as in the code. No error value is returned to the caller.
