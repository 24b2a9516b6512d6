/**
 * Builders for the instructions of the transformation's test shaders.  The
 * result type operand of an instruction is not an in-operand, so it does not
 * appear.  The constant %7 (the integer 2) serves as the stored value, the
 * memory barrier's scope and semantics, and a variable's initialiser.
 */
module TestShaders {
  import opened Wrappers
  import opened Instructions
  import opened Resolver
  import opened MoveDown

  /** StorageClass Function. */
  const FunctionStorage: nat := 7

  function Variable(r: Id): (x: Instruction)
    ensures WellFormed(x) && x.opcode == OpVariable
  {
    Instruction(OpVariable, Some(r), [Literal(FunctionStorage)])
  }

  function VariableInit(r: Id, init: Id): (x: Instruction)
    ensures WellFormed(x) && x.opcode == OpVariable
  {
    Instruction(OpVariable, Some(r), [Literal(FunctionStorage), IdRef(init)])
  }

  function Binary(op: Opcode, r: Id, x: Id, y: Id): (i: Instruction)
    ensures WellFormed(i) && i.opcode == op
  {
    Instruction(op, Some(r), [IdRef(x), IdRef(y)])
  }

  function CopyObject(r: Id, x: Id): (i: Instruction)
    ensures WellFormed(i) && i.opcode == OpCopyObject
  {
    Instruction(OpCopyObject, Some(r), [IdRef(x)])
  }

  function Load(r: Id, pointer: Id): (x: Instruction)
    ensures WellFormed(x) && x.opcode == OpLoad
  {
    Instruction(OpLoad, Some(r), [IdRef(pointer)])
  }

  function Store(pointer: Id, value: Id): (x: Instruction)
    ensures WellFormed(x) && x.opcode == OpStore
  {
    Instruction(OpStore, None, [IdRef(pointer), IdRef(value)])
  }

  function CopyMemory(target: Id, source: Id): (x: Instruction)
    ensures WellFormed(x) && x.opcode == OpCopyMemory
  {
    Instruction(OpCopyMemory, None, [IdRef(target), IdRef(source)])
  }

  function MemoryBarrier(scope: Id, semantics: Id): (x: Instruction)
    ensures WellFormed(x) && x.opcode == OpMemoryBarrier
  {
    Instruction(OpMemoryBarrier, None, [IdRef(scope), IdRef(semantics)])
  }

  function Call(r: Id, callee: Id): (x: Instruction)
    ensures WellFormed(x) && x.opcode == OpFunctionCall
  {
    Instruction(OpFunctionCall, Some(r), [IdRef(callee)])
  }

  function SelectionMerge(merge: Id): (x: Instruction)
    ensures WellFormed(x) && x.opcode == OpSelectionMerge
  {
    Instruction(OpSelectionMerge, None, [IdRef(merge), Literal(0)])
  }

  function BranchConditional(c: Id, t: Id, f: Id): (x: Instruction)
    ensures WellFormed(x) && x.opcode == OpBranchConditional
  {
    Instruction(OpBranchConditional, None, [IdRef(c), IdRef(t), IdRef(f)])
  }

  function Branch(target: Id): (x: Instruction)
    ensures WellFormed(x) && x.opcode == OpBranch
  {
    Instruction(OpBranch, None, [IdRef(target)])
  }

  const Return: Instruction := Instruction(OpReturn, None, [])

  function Desc(base: Id, op: Opcode, skip: nat): InstructionDescriptor
  {
    InstructionDescriptor(base, op, skip)
  }

  /**
   * The tests' pattern of a move followed by the move back: `d1` names
   * position t of the block and `d2` names the same position once the first
   * move is done.  Both apply, and the block ends as it began.
   */
  method MoveAndMoveBack(b: Block, d1: InstructionDescriptor, d2: InstructionDescriptor,
                         irrelevant: set<Id>, ghost t: nat)
    requires b.Valid() && t + 2 < |b.instructions|
    requires Resolve(b.labelId, b.instructions, d1) == Some(t)
    requires IsApplicable(b.labelId, b.instructions, d1, irrelevant)
    requires Resolve(b.labelId, Swapped(b.instructions, t), d2) == Some(t)
    requires AllWellFormed(Swapped(b.instructions, t))
    requires IsApplicable(b.labelId, Swapped(b.instructions, t), d2, irrelevant)
    modifies b
    ensures b.Valid() && b.instructions == old(b.instructions)
  {
    SwappedTwice(b.instructions, t);
    b.Apply(d1, irrelevant);
    b.Apply(d2, irrelevant);
  }
}
