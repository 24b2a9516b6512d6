# Move instruction down

A model of the SPIR-V fuzzer transformation *move instruction down*. The
transformation takes an instruction descriptor and swaps the instruction it
names with that instruction's successor in the same basic block. It does so
only when the swap is legal: the program must mean the same thing afterwards.
The transformation's tests settle what "the same" means, and the model follows
those tests.

Modules:

- `Instructions` holds the instructions: an opcode, an optional result id and
  in-operands. It also holds the classifier `ClassOf`, which puts each
  opcode in one of six classes: simple, memory read, memory write, memory
  read-write, barrier or unsupported.
- `Hazard` holds the swap rule for an instruction A and its successor B. It
  also gives an independent statement of the rule, in terms of relevant reads
  and relevant writes, and proves the two agree. Pointer ids are never
  compared, since any two pointers may alias. The only pointer fact the rule
  uses is the set of ids whose pointee value is irrelevant.
- `Resolver` resolves an instruction descriptor inside one block. A
  descriptor is a base id, a target opcode and a skip count. The count skips
  instructions with the target opcode, counting from the base instruction
  itself. `FindInstruction` is the search as a one-pass loop, and it is
  proved equal to the functional definition `Resolve`.
- `MoveDown` holds the applicability check and the class `Block`. A block
  is a label id and an instruction list that ends in its terminator.
  `Block.Apply` resolves the descriptor and swaps the named instruction
  with its successor in place.
- `TestShaders` and one module per test of
  `test/fuzz/transformation_move_instruction_down_test.cpp` model that test's shader, its descriptors and the verdict of each
  descriptor. Each module's `Scenario` method replays the test's sequence of
  `Apply` calls on `Block` objects. Its postcondition describes the blocks
  that the test's final `IsEqual` expects.

The rule, first step that applies wins:

1. If B is unsupported, A may pass only if A is simple.
2. A simple instruction swaps with anything.
3. A barrier swaps with nothing else.
4. Two instructions that do not write memory swap.
5. Two writes swap when either write target is irrelevant.
6. A relevant read next to a relevant write does not swap.
7. Otherwise the pair swaps when at least one of them reads.

A move also requires the following:

- A is supported.
- B is not the block's last instruction.
- B is not an `OpSelectionMerge` that A would have to follow.
- A is not placed before an `OpVariable` unless A is itself one.
- B does not use A's result.

## Model

| member | source | states |
|---|---|---|
| Hazard.CanSafelySwapIffNoConflict | test/fuzz/transformation_move_instruction_down_test.cpp:503-596 | the step-by-step rule allows a swap exactly when a simple instruction is involved, or when neither instruction is a barrier and their accesses do not conflict (a relevant read against a relevant write, or two relevant writes with no read) |
| Hazard.CanSafelySwapSymmetric | test/fuzz/transformation_move_instruction_down_test.cpp:633-690 | between supported instructions the verdict does not depend on the order, which is why every valid swap of the tests can be undone by moving the other instruction back |
| Hazard.MoreIrrelevanceAllowsMore | test/fuzz/transformation_move_instruction_down_test.cpp:610-690 | adding pointers to the irrelevant set never forbids a swap that was allowed |
| Hazard.SimpleSwapsWithAnything | test/fuzz/transformation_move_instruction_down_test.cpp:373-447 | a simple instruction (OpCopyObject, arithmetic) swaps with any successor, supported or not, and any instruction swaps with a simple successor |
| Hazard.OnlySimplePassesUnsupported | test/fuzz/transformation_move_instruction_down_test.cpp:187-233 | an unsupported successor (such as OpFunctionCall) is passed exactly by simple instructions |
| Hazard.BarrierBlocksMemory | test/fuzz/transformation_move_instruction_down_test.cpp:291-333 | a barrier does not swap with another barrier or with a memory access, in either order |
| Hazard.ReadsCommute | test/fuzz/transformation_move_instruction_down_test.cpp:640-643 | two loads always swap, whatever pointers they read |
| Hazard.IrrelevantWriteTargetAllows | test/fuzz/transformation_move_instruction_down_test.cpp:665-690 | two writing instructions swap when either write target's pointee is irrelevant |
| Hazard.RelevantReadWriteBlocks | test/fuzz/transformation_move_instruction_down_test.cpp:612-619 | a load and a write through pointers with relevant pointees do not swap, in either order |
| Hazard.RelevantStoresBlock | test/fuzz/transformation_move_instruction_down_test.cpp:585-587 | two stores through pointers with relevant pointees do not swap |
| Hazard.CopiesSwapIff | test/fuzz/transformation_move_instruction_down_test.cpp:541-562 | two OpCopyMemory instructions swap exactly when either write target is irrelevant or both sources are |
| Hazard.LoadAndStoreSwapIff | test/fuzz/transformation_move_instruction_down_test.cpp:527-540 | a load and a store swap, in either order, exactly when the load's pointer or the store's target is irrelevant |
| Hazard.CopyAndStoreSwapIff | test/fuzz/transformation_move_instruction_down_test.cpp:564-581 | an OpCopyMemory and a store swap, in either order, exactly when either write target or the copy's source is irrelevant |
| Hazard.LoadAndCopySwapIff | test/fuzz/transformation_move_instruction_down_test.cpp:510-524 | a load and an OpCopyMemory swap, in either order, exactly when the load's pointer or the copy's write target is irrelevant |
| Hazard.StoresSwapIff | test/fuzz/transformation_move_instruction_down_test.cpp:583-594 | two stores swap exactly when either target is irrelevant |
| Resolver.FirstWithResult | test/fuzz/transformation_move_instruction_down_test.cpp:74-77 | the result is the first position holding the id, or None exactly when no instruction has it |
| Resolver.NthWithOpcode | test/fuzz/transformation_move_instruction_down_test.cpp:327-330 | the result has the opcode and exactly n matching instructions before it; None exactly when at most n instructions have the opcode |
| Resolver.NthWithOpcodeUnique | test/fuzz/transformation_move_instruction_down_test.cpp:344-351 | a position with the opcode and n matches before it is the n-th match |
| Resolver.ResolveCountsFromBase | test/fuzz/transformation_move_instruction_down_test.cpp:620-627 | a descriptor names position t exactly when t is at or after the base, holds the target opcode, and exactly skip matching instructions lie between the base (inclusive) and t |
| Resolver.ResolvesToNothing | test/fuzz/transformation_move_instruction_down_test.cpp:80-82 | a descriptor with too few matching instructions from its base names nothing |
| Resolver.UnknownBaseNamesNothing | test/fuzz/transformation_move_instruction_down_test.cpp:74-77 | a descriptor whose base id is neither the label nor any result id names nothing |
| Resolver.FindInstruction | test/fuzz/transformation_move_instruction_down_test.cpp:111-126 | the one-pass search returns what Resolve defines |
| MoveDown.ApplicableNamesMovableInstruction | test/fuzz/transformation_move_instruction_down_test.cpp:74-126 | in a valid block, an applicable descriptor names a supported instruction with the target opcode; neither it nor its successor is the terminator, the successor is not OpSelectionMerge, and the successor does not use its result |
| MoveDown.Swapped | test/fuzz/transformation_move_instruction_down_test.cpp:111-167 | the swapped body has the same length, exchanges positions i and i + 1, and leaves every other position alone |
| MoveDown.SwappedIsPermutation | test/fuzz/transformation_move_instruction_down_test.cpp:111-126 | a move neither creates nor destroys an instruction |
| MoveDown.SwappedTwice | test/fuzz/transformation_move_instruction_down_test.cpp:336-353 | swapping the same position twice restores the body |
| MoveDown.TerminatorImmunity | test/fuzz/transformation_move_instruction_down_test.cpp:90-99 | neither the block's last instruction nor the one just before it can move |
| MoveDown.UnsupportedNeverMoves | test/fuzz/transformation_move_instruction_down_test.cpp:79-88 | unsupported instructions (OpLabel, OpVariable, OpFunctionCall, merges, terminators) never move |
| MoveDown.CanMoveDownIsLocal | test/fuzz/transformation_move_instruction_down_test.cpp:101-109 | the verdict depends only on the moved instruction, its successor and the instruction after that |
| MoveDown.MovePreservesValidBody | test/fuzz/transformation_move_instruction_down_test.cpp:111-126 | a move keeps the block invariant: the terminator stays last, and no other instruction is a terminator or a label |
| MoveDown.MoveBackRestores | test/fuzz/transformation_move_instruction_down_test.cpp:633-690 | after A moves below B, B (if supported and independent of A) may move back below A, and doing so restores the body |
| MoveDown.MoveThenMoveBack | test/fuzz/transformation_move_instruction_down_test.cpp:633-701 | when d1 names A and, after the move, d2 names B in A's old place, both descriptors apply and together they restore the body |
| MoveDown.ResolvesToMovedSuccessor | test/fuzz/transformation_move_instruction_down_test.cpp:344-351 | after the swap at t, a descriptor counted from a base above t (or from B itself) names t |
| MoveDown.Block.SwapWithSuccessor | test/fuzz/transformation_move_instruction_down_test.cpp:111-126 | the block stays valid, positions i and i + 1 exchange their instructions, and all other positions keep theirs |
| MoveDown.Block.Apply | test/fuzz/transformation_move_instruction_down_test.cpp:111-126 | an applicable descriptor resolves, and the block's new body is the old one with the named instruction swapped with its successor |
| TestShaders.MoveAndMoveBack | test/fuzz/transformation_move_instruction_down_test.cpp:336-353 | a move followed by the move back leaves a valid block with its original body |
| BasicTest.UnknownBase | test/fuzz/transformation_move_instruction_down_test.cpp:74-77 | (30, OpNop, 0) does not apply: nothing has result %30 |
| BasicTest.LabelNotMovable | test/fuzz/transformation_move_instruction_down_test.cpp:80-82 | (5, OpLabel, 0) does not apply |
| BasicTest.VariableNotMovable | test/fuzz/transformation_move_instruction_down_test.cpp:83-85 | (12, OpVariable, 0) does not apply |
| BasicTest.CallNotMovable | test/fuzz/transformation_move_instruction_down_test.cpp:86-88 | (42, OpFunctionCall, 0) does not apply |
| BasicTest.LastNotMovable | test/fuzz/transformation_move_instruction_down_test.cpp:90-93 | (15, OpBranchConditional, 0), the terminator, does not apply |
| BasicTest.BeforeLastNotMovable | test/fuzz/transformation_move_instruction_down_test.cpp:95-99 | (21, OpIAdd, 0), just before the terminator, does not apply |
| BasicTest.NotAfterMerge | test/fuzz/transformation_move_instruction_down_test.cpp:101-104 | (15, OpIMul, 0) does not apply: its successor is OpSelectionMerge |
| BasicTest.SuccessorDependsOnIt | test/fuzz/transformation_move_instruction_down_test.cpp:106-109 | (10, OpIAdd, 0) does not apply: its successor %11 = OpISub uses %10 |
| BasicTest.MoveISubApplicable | test/fuzz/transformation_move_instruction_down_test.cpp:111-118 | (11, OpISub, 0) names %11 and applies |
| BasicTest.MoveIAddApplicable | test/fuzz/transformation_move_instruction_down_test.cpp:119-126 | (22, OpIAdd, 0) names %22 in block %19 and applies |
| BasicTest.MovedBlock5 | test/fuzz/transformation_move_instruction_down_test.cpp:144-152 | the move in block %5 gives the block of the expected shader |
| BasicTest.MovedBlock19 | test/fuzz/transformation_move_instruction_down_test.cpp:155-161 | the move in block %19 gives the block of the expected shader |
| BasicTest.Scenario | test/fuzz/transformation_move_instruction_down_test.cpp:111-167 | after both moves, blocks %5 and %19 are those of the expected shader and blocks %18 and %41 are unchanged |
| UnsupportedInstructionsTest.LoadBeforeCall | test/fuzz/transformation_move_instruction_down_test.cpp:217-220 | (22, OpLoad, 0) does not apply: the load may not pass a call |
| UnsupportedInstructionsTest.BarrierBeforeCall | test/fuzz/transformation_move_instruction_down_test.cpp:222-225 | (23, OpMemoryBarrier, 0) names the barrier, which may not pass a call |
| UnsupportedInstructionsTest.CopyObjectBeforeCall | test/fuzz/transformation_move_instruction_down_test.cpp:227-233 | (8, OpCopyObject, 0) applies: a simple instruction passes a call |
| UnsupportedInstructionsTest.MovedBlock | test/fuzz/transformation_move_instruction_down_test.cpp:248-265 | the move gives the block of the expected shader |
| UnsupportedInstructionsTest.Scenario | test/fuzz/transformation_move_instruction_down_test.cpp:227-271 | after the move, block %5 is that of the expected shader and block %13 is unchanged |
| BarrierInstructionsTest.BarrierBeforeBarrier | test/fuzz/transformation_move_instruction_down_test.cpp:322-325 | (21, OpMemoryBarrier, 0) does not apply: two barriers do not swap |
| BarrierInstructionsTest.BarrierBeforeLoad | test/fuzz/transformation_move_instruction_down_test.cpp:327-330 | (21, OpMemoryBarrier, 2) names the barrier before the load, and it does not apply |
| BarrierInstructionsTest.LoadBeforeBarrier | test/fuzz/transformation_move_instruction_down_test.cpp:331-333 | (22, OpLoad, 0) does not apply: a load does not pass a barrier |
| BarrierInstructionsTest.CopyObjectAndBarrier | test/fuzz/transformation_move_instruction_down_test.cpp:335-351 | (23, OpCopyObject, 0) applies; afterwards (22, OpMemoryBarrier, 1) names the barrier in its new place and applies, and the two moves restore the block |
| BarrierInstructionsTest.Scenario | test/fuzz/transformation_move_instruction_down_test.cpp:335-353 | after both moves the blocks are unchanged |
| SimpleInstructionsTest.CopyObjectAndBarrier | test/fuzz/transformation_move_instruction_down_test.cpp:403-419 | (40, OpCopyObject, 0) passes the barrier, and (21, OpMemoryBarrier, 0) moves the barrier back |
| SimpleInstructionsTest.CopyObjectAndLoad | test/fuzz/transformation_move_instruction_down_test.cpp:421-437 | (41, OpCopyObject, 0) passes the load, and (22, OpLoad, 0) moves the load back |
| SimpleInstructionsTest.TwoCopyObjects | test/fuzz/transformation_move_instruction_down_test.cpp:439-447 | (23, OpCopyObject, 0) passes the other OpCopyObject |
| SimpleInstructionsTest.MovedBlock | test/fuzz/transformation_move_instruction_down_test.cpp:462-479 | the three moves give the block of the expected shader |
| SimpleInstructionsTest.Scenario | test/fuzz/transformation_move_instruction_down_test.cpp:403-485 | after the three moves, block %5 is that of the expected shader and block %13 is unchanged |
| MemoryInstructionsTest.RAndRWBlocked | test/fuzz/transformation_move_instruction_down_test.cpp:513-616 | (25, OpLoad, 0) names %25 = OpLoad %21 (line 513), and with %22 irrelevant it may not move below OpCopyMemory %21 %22 (line 514) |
| MemoryInstructionsTest.RAndWBlocked | test/fuzz/transformation_move_instruction_down_test.cpp:529-619 | (29, OpLoad, 0) names %29 = OpLoad %21 (line 529), and with %22 irrelevant it may not move below OpStore %21 (line 530) |
| MemoryInstructionsTest.RWAndRWBlocked0 | test/fuzz/transformation_move_instruction_down_test.cpp:545-622 | (32, OpCopyMemory, 0) names OpCopyMemory %21 %21 (line 545), and with %22 irrelevant it may not move below OpCopyMemory %21 %21 (line 546) |
| MemoryInstructionsTest.RWAndRWBlocked2 | test/fuzz/transformation_move_instruction_down_test.cpp:548-623 | (32, OpCopyMemory, 2) names OpCopyMemory %21 %22 (line 548), and with %22 irrelevant it may not move below OpCopyMemory %21 %21 (line 549) |
| MemoryInstructionsTest.RWAndRWBlocked4 | test/fuzz/transformation_move_instruction_down_test.cpp:551-624 | (32, OpCopyMemory, 4) names OpCopyMemory %21 %21 (line 551), and with %22 irrelevant it may not move below OpCopyMemory %21 %22 (line 552) |
| MemoryInstructionsTest.RWAndWBlocked | test/fuzz/transformation_move_instruction_down_test.cpp:567-627 | (32, OpCopyMemory, 12) names OpCopyMemory %21 %21 (line 567), and with %22 irrelevant it may not move below OpStore %21 (line 568) |
| MemoryInstructionsTest.WAndWBlocked | test/fuzz/transformation_move_instruction_down_test.cpp:586-631 | (32, OpStore, 6) names OpStore %21 (line 586), and with %22 irrelevant it may not move below OpStore %21 (line 587) |
| MemoryInstructionsTest.PairRAndR | test/fuzz/transformation_move_instruction_down_test.cpp:507-643 | (23, OpLoad, 0) names %23 = OpLoad %21 (line 507), which may move below %24 = OpLoad %22 (line 508); afterwards (24, OpLoad, 0) names the latter in its new place and may move it back |
| MemoryInstructionsTest.PairRAndRW26 | test/fuzz/transformation_move_instruction_down_test.cpp:517-647 | (26, OpLoad, 0) names %26 = OpLoad %21 (line 517), which may move below OpCopyMemory %22 %21 (line 518); afterwards (25, OpCopyMemory, 1) names the latter in its new place and may move it back |
| MemoryInstructionsTest.PairRAndRW27 | test/fuzz/transformation_move_instruction_down_test.cpp:520-650 | (27, OpLoad, 0) names %27 = OpLoad %22 (line 520), which may move below OpCopyMemory %21 %22 (line 521); afterwards (26, OpCopyMemory, 1) names the latter in its new place and may move it back |
| MemoryInstructionsTest.PairRAndRW28 | test/fuzz/transformation_move_instruction_down_test.cpp:523-653 | (28, OpLoad, 0) names %28 = OpLoad %22 (line 523), which may move below OpCopyMemory %22 %21 (line 524); afterwards (27, OpCopyMemory, 1) names the latter in its new place and may move it back |
| MemoryInstructionsTest.PairRAndW30 | test/fuzz/transformation_move_instruction_down_test.cpp:533-657 | (30, OpLoad, 0) names %30 = OpLoad %22 (line 533), which may move below OpStore %21 (line 534); afterwards (29, OpStore, 1) names the latter in its new place and may move it back |
| MemoryInstructionsTest.PairRAndW31 | test/fuzz/transformation_move_instruction_down_test.cpp:536-660 | (31, OpLoad, 0) names %31 = OpLoad %21 (line 536), which may move below OpStore %22 (line 537); afterwards (30, OpStore, 1) names the latter in its new place and may move it back |
| MemoryInstructionsTest.PairRAndW32 | test/fuzz/transformation_move_instruction_down_test.cpp:539-663 | (32, OpLoad, 0) names %32 = OpLoad %22 (line 539), which may move below OpStore %22 (line 540); afterwards (31, OpStore, 1) names the latter in its new place and may move it back |
| MemoryInstructionsTest.PairRWAndRW6 | test/fuzz/transformation_move_instruction_down_test.cpp:555-667 | (32, OpCopyMemory, 6) names OpCopyMemory %22 %21 (line 555), which may move below OpCopyMemory %21 %22 (line 556); afterwards (32, OpCopyMemory, 6) names the latter in its new place and may move it back |
| MemoryInstructionsTest.PairRWAndRW8 | test/fuzz/transformation_move_instruction_down_test.cpp:558-670 | (32, OpCopyMemory, 8) names OpCopyMemory %22 %21 (line 558), which may move below OpCopyMemory %22 %21 (line 559); afterwards (32, OpCopyMemory, 8) names the latter in its new place and may move it back |
| MemoryInstructionsTest.PairRWAndRW10 | test/fuzz/transformation_move_instruction_down_test.cpp:561-673 | (32, OpCopyMemory, 10) names OpCopyMemory %21 %22 (line 561), which may move below OpCopyMemory %21 %22 (line 562); afterwards (32, OpCopyMemory, 10) names the latter in its new place and may move it back |
| MemoryInstructionsTest.PairRWAndW14 | test/fuzz/transformation_move_instruction_down_test.cpp:574-677 | (32, OpCopyMemory, 14) names OpCopyMemory %22 %21 (line 574), which may move below OpStore %21 (line 575); afterwards (32, OpStore, 3) names the latter in its new place and may move it back |
| MemoryInstructionsTest.PairRWAndW15 | test/fuzz/transformation_move_instruction_down_test.cpp:577-680 | (32, OpCopyMemory, 15) names OpCopyMemory %21 %22 (line 577), which may move below OpStore %21 (line 578); afterwards (32, OpStore, 4) names the latter in its new place and may move it back |
| MemoryInstructionsTest.PairRWAndW16 | test/fuzz/transformation_move_instruction_down_test.cpp:580-683 | (32, OpCopyMemory, 16) names OpCopyMemory %21 %21 (line 580), which may move below OpStore %22 (line 581); afterwards (32, OpStore, 5) names the latter in its new place and may move it back |
| MemoryInstructionsTest.PairWAndW8 | test/fuzz/transformation_move_instruction_down_test.cpp:590-687 | (32, OpStore, 8) names OpStore %22 (line 590), which may move below OpStore %21 (line 591); afterwards (32, OpStore, 8) names the latter in its new place and may move it back |
| MemoryInstructionsTest.PairWAndW10 | test/fuzz/transformation_move_instruction_down_test.cpp:593-690 | (32, OpStore, 10) names OpStore %22 (line 593), which may move below OpStore %22 (line 594); afterwards (32, OpStore, 10) names the latter in its new place and may move it back |
| MemoryInstructionsTest.StoreSkipOneNamesStorePair | test/fuzz/transformation_move_instruction_down_test.cpp:614-631 | (32, OpStore, 1) as written names OpStore %21 (line 568), whose successor is OpStore %21 (line 570); this W/W pair is rejected, so the listed RW/W pair is never tried |
| MemoryInstructionsTest.WAndRWBlocked | test/fuzz/transformation_move_instruction_down_test.cpp:614-631 | (32, OpStore, 2) names OpStore %21 (line 570), and with %22 irrelevant it may not move below OpCopyMemory %21 %21 (line 571) |
| MemoryInstructionsTest.InvalidSwapsRejected | test/fuzz/transformation_move_instruction_down_test.cpp:612-636 | none of the invalid descriptors applies (with (32, OpStore, 2) for the pair of lines 570-571) |
| MemoryInstructionsTest.Scenario | test/fuzz/transformation_move_instruction_down_test.cpp:638-701 | after the fifteen pairs of moves the block is the original one |

## Left out

- Building the module from its assembly text, the validator (`IsValid`) and `IsEqual`: the block invariant `ValidBody` stands in for validity, and sequence equality for `IsEqual`.
- The fact manager and the transformation context: only the "value of pointee is irrelevant" facts matter here, so they are a set of ids that the operations read.
- The pointer-type checks of the memory instructions: well-formed operands (`WellFormed`) are required, as valid modules guarantee them.
- Resolution across the whole module: a descriptor is resolved inside the block being modelled. The tests' other blocks are either not named by any descriptor or hold only their terminator.
- The protobuf record of the transformation and its serialisation.
- Opcodes outside the closed set used by the tests (OpLoopMerge, OpPhi, atomics, image instructions and the rest): only the tests' opcodes are classified.
- The fuzzer pass that chooses descriptors at random.
- OpNop: it appears only as an opcode in a descriptor that names nothing, so its class (simple here) is not constrained by the tests.
- MemoryInstructionsTest.Scenario: the loops over the lists of valid and invalid descriptors become straight-line calls, one per pair.
- No rule forbids two writes to the same pointer id: the OpCopyMemory %21 %22 pair at lines 561-562 is a valid swap, so the rule never compares pointer ids.
- The dependency check follows the test at lines 106-109: the successor may not use the moved instruction's result. The case where the moved instruction uses the successor's result cannot occur in SSA form.

## Findings

| source | as written | input that shows it | evidently intended | confidence | as-written member | corrected member |
|---|---|---|---|---|---|---|
| test/fuzz/transformation_move_instruction_down_test.cpp:628 | the invalid list's "RW and W" entry is (32, OpStore, 1) | skips count from %32 (line 539), so the OpStore at line 540 is match 0 and the descriptor names OpStore %21 at line 568, whose successor is OpStore %21 at line 570: a W/W pair, not the W/RW pair of lines 570-571 | (32, OpStore, 2), which names line 570 and tests the W-before-RW pair | not executed | MemoryInstructionsTest.StoreSkipOneNamesStorePair | MemoryInstructionsTest.WAndRWBlocked |
