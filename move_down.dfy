/**
 * The move-instruction-down transformation: exchange an instruction with its
 * successor in the same basic block, when that is legal.
 *
 * A block is its label id (kept apart from the body, as OpLabel is not one of
 * the block's instructions) and its instruction list, which ends with the
 * block's terminator.
 */
module MoveDown {
  import opened Wrappers
  import opened Instructions
  import opened Hazard
  import opened Resolver

  predicate AllWellFormed(s: seq<Instruction>)
  {
    forall k :: 0 <= k < |s| ==> WellFormed(s[k])
  }

  /**
   * The invariant of a block body: it ends with its terminator, and no other
   * instruction is a terminator or a label.
   */
  predicate ValidBody(s: seq<Instruction>)
  {
    && |s| > 0
    && IsTerminator(s[|s| - 1].opcode)
    && (forall k :: 0 <= k < |s| - 1 ==> !IsTerminator(s[k].opcode))
    && (forall k :: 0 <= k < |s| ==> s[k].opcode != OpLabel)
    && AllWellFormed(s)
  }

  /**
   * May an instruction with A's opcode stand after B, that is, right before
   * C?  A merge instruction must immediately precede its branch (the
   * OpSelectionMerge entry of section 3.32.17 of the SPIR-V specification),
   * and the OpVariable instructions of a function must open its entry block
   * (section 2.4 of the SPIR-V specification).
   */
  predicate MayFollow(a: Instruction, b: Instruction, c: Instruction)
  {
    b.opcode != OpSelectionMerge && (c.opcode == OpVariable ==> a.opcode == OpVariable)
  }

  /**
   * May the instruction at position i move one slot down?  It must be
   * supported, it must have a successor that is not the block's last
   * instruction, the pair must pass the hazard rule, A's opcode must be
   * allowed after B, and B must not use A's result.
   */
  predicate CanMoveDownAt(s: seq<Instruction>, i: int, irrelevant: set<Id>)
    requires AllWellFormed(s)
  {
    && 0 <= i && i + 2 < |s|
    && IsSupported(s[i])
    && MaySwap(s[i], s[i + 1], irrelevant)
    && MayFollow(s[i], s[i + 1], s[i + 2])
    && !DependsOn(s[i + 1], s[i])
  }

  /** The transformation's applicability: the descriptor names an instruction
      of the block, and that instruction may move down. */
  predicate IsApplicable(labelId: Id, s: seq<Instruction>, d: InstructionDescriptor, irrelevant: set<Id>)
    requires AllWellFormed(s)
  {
    match Resolve(labelId, s, d)
    case None => false
    case Some(i) => CanMoveDownAt(s, i, irrelevant)
  }

  /** Once the descriptor is resolved, applicability is the local rule at that position. */
  lemma ApplicableAt(labelId: Id, s: seq<Instruction>, d: InstructionDescriptor, irrelevant: set<Id>, i: nat)
    requires AllWellFormed(s) && Resolve(labelId, s, d) == Some(i)
    ensures IsApplicable(labelId, s, d, irrelevant) == CanMoveDownAt(s, i, irrelevant)
  {
  }

  /**
   * What an applicable descriptor guarantees about the block: it names a
   * supported instruction with the target opcode, neither that instruction
   * nor its successor is the terminator, the successor is not a merge and
   * does not use the named instruction's result.
   */
  lemma ApplicableNamesMovableInstruction(labelId: Id, s: seq<Instruction>, d: InstructionDescriptor, irrelevant: set<Id>)
    requires ValidBody(s) && IsApplicable(labelId, s, d, irrelevant)
    ensures Resolve(labelId, s, d).Some?
    ensures var i := Resolve(labelId, s, d).value;
              && i + 2 < |s| && s[i].opcode == d.targetOpcode && IsSupported(s[i])
              && !IsTerminator(s[i].opcode) && !IsTerminator(s[i + 1].opcode)
              && s[i + 1].opcode != OpSelectionMerge && !DependsOn(s[i + 1], s[i])
  {
  }

  /** The body with positions i and i + 1 exchanged. */
  function Swapped(s: seq<Instruction>, i: nat): (r: seq<Instruction>)
    requires i + 1 < |s|
    ensures |r| == |s| && r[i] == s[i + 1] && r[i + 1] == s[i]
    ensures forall k :: 0 <= k < |s| && k != i && k != i + 1 ==> r[k] == s[k]
  {
    s[..i] + [s[i + 1], s[i]] + s[i + 2..]
  }

  /** Moving an instruction neither creates nor destroys one. */
  lemma SwappedIsPermutation(s: seq<Instruction>, i: nat)
    requires i + 1 < |s|
    ensures multiset(Swapped(s, i)) == multiset(s)
  {
    assert s == s[..i] + [s[i], s[i + 1]] + s[i + 2..];
  }

  /** Exchanging twice restores the body. */
  lemma SwappedTwice(s: seq<Instruction>, i: nat)
    requires i + 1 < |s|
    ensures Swapped(Swapped(s, i), i) == s
  {
  }

  /** Neither the block's last instruction nor the one right before it may move. */
  lemma TerminatorImmunity(s: seq<Instruction>, i: int, irrelevant: set<Id>)
    requires AllWellFormed(s)
    requires |s| - 2 <= i
    ensures !CanMoveDownAt(s, i, irrelevant)
  {
  }

  /** Unsupported instructions (OpLabel, OpVariable, OpFunctionCall, merges,
      terminators) never move. */
  lemma UnsupportedNeverMoves(s: seq<Instruction>, i: int, irrelevant: set<Id>)
    requires AllWellFormed(s) && 0 <= i < |s|
    requires !IsSupported(s[i])
    ensures !CanMoveDownAt(s, i, irrelevant)
  {
  }

  /** The verdict depends only on the moved instruction, its successor and the
      instruction after that. */
  lemma CanMoveDownIsLocal(s: seq<Instruction>, i: nat, irrelevant: set<Id>)
    requires AllWellFormed(s) && i + 2 < |s|
    ensures AllWellFormed(s[i..i + 3])
    ensures CanMoveDownAt(s, i, irrelevant) == CanMoveDownAt(s[i..i + 3], 0, irrelevant)
  {
    assert s[i..i + 3][0] == s[i] && s[i..i + 3][1] == s[i + 1] && s[i..i + 3][2] == s[i + 2];
  }

  /** A legal move keeps the block invariant: the terminator stays last. */
  lemma MovePreservesValidBody(s: seq<Instruction>, i: nat)
    requires ValidBody(s) && i + 2 < |s|
    ensures ValidBody(Swapped(s, i))
    ensures Swapped(s, i)[|s| - 1] == s[|s| - 1]
  {
  }

  /**
   * Once A has moved below B, B may move back below A (when B is itself
   * supported and A does not use B's result, which holds in SSA form as A
   * came first), and doing so restores the body.
   */
  lemma {:induction false} MoveBackRestores(s: seq<Instruction>, i: nat, irrelevant: set<Id>)
    requires AllWellFormed(s) && CanMoveDownAt(s, i, irrelevant)
    requires IsSupported(s[i + 1]) && !DependsOn(s[i], s[i + 1])
    ensures AllWellFormed(Swapped(s, i))
    ensures CanMoveDownAt(Swapped(s, i), i, irrelevant)
    ensures Swapped(Swapped(s, i), i) == s
  {
    CanSafelySwapSymmetric(s[i], s[i + 1], irrelevant);
  }

  /**
   * A move the descriptor `d1` names, followed by the move a second
   * descriptor `d2` names at the same position of the new body: both are
   * applicable, and together they restore the body.
   */
  lemma MoveThenMoveBack(labelId: Id, s: seq<Instruction>, d1: InstructionDescriptor, d2: InstructionDescriptor,
                         irrelevant: set<Id>, t: nat)
    requires AllWellFormed(s) && Resolve(labelId, s, d1) == Some(t) && CanMoveDownAt(s, t, irrelevant)
    requires IsSupported(s[t + 1]) && !DependsOn(s[t], s[t + 1])
    requires Resolve(labelId, Swapped(s, t), d2) == Some(t)
    ensures IsApplicable(labelId, s, d1, irrelevant)
    ensures AllWellFormed(Swapped(s, t)) && IsApplicable(labelId, Swapped(s, t), d2, irrelevant)
    ensures Swapped(Swapped(s, t), t) == s
  {
    MoveBackRestores(s, t, irrelevant);
  }

  /**
   * After the swap at t, a descriptor whose base lies above t (or is the
   * successor B itself, now at t) names t when that position holds the target
   * opcode and `skip` matching instructions lie between the base and t.
   */
  lemma ResolvesToMovedSuccessor(labelId: Id, s: seq<Instruction>, d: InstructionDescriptor, start: nat, t: nat)
    requires start <= t && t + 1 < |s|
    requires labelId == d.baseId ==> start == 0
    requires labelId != d.baseId ==> (start < t && s[start].result == Some(d.baseId))
                                     || (start == t && s[t + 1].result == Some(d.baseId))
    requires forall k :: 0 <= k < start ==> s[k].result != Some(d.baseId)
    requires s[t + 1].opcode == d.targetOpcode
    requires CountOpcode(s[start..t], d.targetOpcode) == d.skip
    ensures Resolve(labelId, Swapped(s, t), d) == Some(t)
  {
    assert Swapped(s, t)[start..t] == s[start..t];
    ResolvesTo(labelId, Swapped(s, t), d, start, t);
  }

  /** A basic block whose instruction list the transformation updates in place. */
  class Block {
    const labelId: Id
    var instructions: seq<Instruction>

    predicate Valid()
      reads this
    {
      ValidBody(instructions)
    }

    constructor (labelId: Id, body: seq<Instruction>)
      requires ValidBody(body)
      ensures Valid() && this.labelId == labelId && instructions == body
    {
      this.labelId := labelId;
      instructions := body;
    }

    /** Exchange the instruction at position i with its successor; the
        terminator is never touched, so the block stays valid. */
    method SwapWithSuccessor(i: nat)
      requires Valid() && i + 2 < |instructions|
      modifies this
      ensures Valid()
      ensures instructions == Swapped(old(instructions), i)
      ensures instructions[i] == old(instructions[i + 1]) && instructions[i + 1] == old(instructions[i])
      ensures forall k :: 0 <= k < |instructions| && k != i && k != i + 1 ==>
                instructions[k] == old(instructions[k])
    {
      MovePreservesValidBody(instructions, i);
      instructions := instructions[i := instructions[i + 1]][i + 1 := instructions[i]];
    }

    /** The transformation's Apply: find the instruction the descriptor names
        and move it below its successor.  Callers establish IsApplicable first. */
    method Apply(d: InstructionDescriptor, irrelevant: set<Id>)
      requires Valid() && IsApplicable(labelId, instructions, d, irrelevant)
      modifies this
      ensures Valid()
      ensures Resolve(labelId, old(instructions), d).Some?
      ensures instructions == Swapped(old(instructions), Resolve(labelId, old(instructions), d).value)
    {
      var position := FindInstruction(labelId, instructions, d);
      SwapWithSuccessor(position.value);
    }
  }
}
