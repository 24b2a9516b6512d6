/**
 * SPIR-V instructions as the move-instruction-down transformation sees them,
 * and the classifier that sorts an opcode into the effect class the
 * transformation reasons about.  The opcode set is closed: it holds the
 * opcodes the transformation's tests use.
 */
module Instructions {
  import opened Wrappers

  /** A SPIR-V id: a result id or an id operand. */
  type Id = nat

  /** An in-operand (what follows the result type and the result id). */
  datatype Operand = IdRef(id: Id) | Literal(word: nat)

  datatype Opcode =
    | OpNop
    | OpLabel
    | OpVariable
    | OpFunctionCall
    | OpIAdd
    | OpISub
    | OpIMul
    | OpCopyObject
    | OpLoad
    | OpStore
    | OpCopyMemory
    | OpMemoryBarrier
    | OpSelectionMerge
    | OpBranch
    | OpBranchConditional
    | OpReturn

  /** An instruction: its opcode, its result id if it has one, its in-operands. */
  datatype Instruction = Instruction(opcode: Opcode, result: Option<Id>, operands: seq<Operand>)

  /** The effect classes of the transformation. */
  datatype OpClass =
    | Simple           // no memory or synchronisation effect
    | MemoryRead       // reads through one pointer operand
    | MemoryWrite      // writes through one pointer operand
    | MemoryReadWrite  // writes through one pointer, reads through another
    | Barrier          // orders every memory access around it
    | Unsupported      // calls, labels, variables, merges, terminators

  function ClassOf(op: Opcode): OpClass
  {
    match op
    case OpNop | OpIAdd | OpISub | OpIMul | OpCopyObject => Simple
    case OpLoad => MemoryRead
    case OpStore => MemoryWrite
    case OpCopyMemory => MemoryReadWrite
    case OpMemoryBarrier => Barrier
    case OpLabel | OpVariable | OpFunctionCall | OpSelectionMerge
       | OpBranch | OpBranchConditional | OpReturn => Unsupported
  }

  predicate IsTerminator(op: Opcode)
  {
    op == OpBranch || op == OpBranchConditional || op == OpReturn
  }

  /** Only instructions of a supported class may be moved. */
  predicate IsSupported(x: Instruction)
  {
    ClassOf(x.opcode) != Unsupported
  }

  predicate IsSimple(x: Instruction)
  {
    ClassOf(x.opcode) == Simple
  }

  predicate IsBarrier(x: Instruction)
  {
    ClassOf(x.opcode) == Barrier
  }

  predicate ReadsMemory(x: Instruction)
  {
    ClassOf(x.opcode) == MemoryRead || ClassOf(x.opcode) == MemoryReadWrite
  }

  predicate WritesMemory(x: Instruction)
  {
    ClassOf(x.opcode) == MemoryWrite || ClassOf(x.opcode) == MemoryReadWrite
  }

  predicate IdOperandAt(x: Instruction, k: nat)
  {
    k < |x.operands| && x.operands[k].IdRef?
  }

  /**
   * The operand shape valid modules guarantee for the memory instructions:
   * OpLoad has its pointer first, OpStore its target first, OpCopyMemory its
   * target and then its source.
   */
  predicate WellFormed(x: Instruction)
  {
    match x.opcode
    case OpLoad => IdOperandAt(x, 0)
    case OpStore => IdOperandAt(x, 0) && 2 <= |x.operands|
    case OpCopyMemory => IdOperandAt(x, 0) && IdOperandAt(x, 1)
    case _ => true
  }

  /** The pointer a memory-reading instruction reads through. */
  function ReadTarget(x: Instruction): (p: Id)
    requires ReadsMemory(x) && WellFormed(x)
    ensures IdRef(p) in x.operands
    ensures x.opcode == OpLoad || x.operands[1] == IdRef(p)
  {
    if x.opcode == OpLoad then x.operands[0].id else x.operands[1].id
  }

  /** The pointer a memory-writing instruction writes through. */
  function WriteTarget(x: Instruction): (p: Id)
    requires WritesMemory(x) && WellFormed(x)
    ensures x.operands[0] == IdRef(p)
  {
    x.operands[0].id
  }

  /** True when `id` is one of the id in-operands of `x`. */
  predicate Uses(x: Instruction, id: Id)
  {
    IdRef(id) in x.operands
  }

  /** True when `b` takes the result of `a` as an operand. */
  predicate DependsOn(b: Instruction, a: Instruction)
  {
    a.result.Some? && Uses(b, a.result.value)
  }
}
