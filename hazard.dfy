/**
 * The hazard analysis: may the instruction A and its successor B exchange
 * places without changing what the program does?
 *
 * The analysis never compares pointer ids: any two pointers may alias.  The
 * only pointer fact it consults is the set of ids whose pointee value is
 * irrelevant (the fact manager's "value of pointee is irrelevant" facts).
 */
module Hazard {
  import opened Instructions

  /**
   * The rule for two supported instructions, first step that applies wins:
   * a simple instruction swaps with anything; a barrier swaps with nothing
   * else; two pure reads swap; two writes swap when either target is
   * irrelevant; a relevant read next to a relevant write does not swap;
   * otherwise the pair swaps when at least one of them reads.
   */
  predicate CanSafelySwap(a: Instruction, b: Instruction, irrelevant: set<Id>)
    requires IsSupported(a) && IsSupported(b) && WellFormed(a) && WellFormed(b)
  {
    if IsSimple(a) || IsSimple(b) then true
    else if IsBarrier(a) || IsBarrier(b) then false
    else if !WritesMemory(a) && !WritesMemory(b) then true
    else if WritesMemory(a) && WritesMemory(b)
            && (WriteTarget(a) in irrelevant || WriteTarget(b) in irrelevant) then true
    else if ReadsMemory(a) && WritesMemory(b)
            && ReadTarget(a) !in irrelevant && WriteTarget(b) !in irrelevant then false
    else if WritesMemory(a) && ReadsMemory(b)
            && WriteTarget(a) !in irrelevant && ReadTarget(b) !in irrelevant then false
    else ReadsMemory(a) || ReadsMemory(b)
  }

  /**
   * The full rule for a supported A and any successor B: an unsupported
   * successor (a call, a merge, a terminator) is passed only by a simple A.
   */
  predicate MaySwap(a: Instruction, b: Instruction, irrelevant: set<Id>)
    requires IsSupported(a) && WellFormed(a) && WellFormed(b)
  {
    if IsSupported(b) then CanSafelySwap(a, b, irrelevant) else IsSimple(a)
  }

  // An independent statement of the rule, in terms of the accesses each
  // instruction makes that matter.

  /** A write whose target's pointee value is not known to be irrelevant. */
  predicate RelevantWrite(x: Instruction, irrelevant: set<Id>)
    requires WellFormed(x)
  {
    WritesMemory(x) && WriteTarget(x) !in irrelevant
  }

  /**
   * A read through a pointer that is not irrelevant, made by an instruction
   * whose own write (if any) is not to an irrelevant pointer: the read of a
   * copy into an irrelevant location feeds nothing observable.
   */
  predicate RelevantRead(x: Instruction, irrelevant: set<Id>)
    requires WellFormed(x)
  {
    ReadsMemory(x) && ReadTarget(x) !in irrelevant
    && !(WritesMemory(x) && WriteTarget(x) in irrelevant)
  }

  /**
   * Two memory accesses conflict when one makes a relevant read and the other
   * a relevant write, or when both make relevant writes and neither reads.
   */
  predicate Conflict(a: Instruction, b: Instruction, irrelevant: set<Id>)
    requires WellFormed(a) && WellFormed(b)
  {
    (RelevantRead(a, irrelevant) && RelevantWrite(b, irrelevant))
    || (RelevantWrite(a, irrelevant) && RelevantRead(b, irrelevant))
    || (RelevantWrite(a, irrelevant) && RelevantWrite(b, irrelevant)
        && !ReadsMemory(a) && !ReadsMemory(b))
  }

  /** The rule allows a swap exactly when a simple instruction is involved, or
      neither is a barrier and their accesses do not conflict. */
  lemma CanSafelySwapIffNoConflict(a: Instruction, b: Instruction, irrelevant: set<Id>)
    requires IsSupported(a) && IsSupported(b) && WellFormed(a) && WellFormed(b)
    ensures CanSafelySwap(a, b, irrelevant) <==>
              IsSimple(a) || IsSimple(b)
              || (!IsBarrier(a) && !IsBarrier(b) && !Conflict(a, b, irrelevant))
  {
  }

  /** Between supported instructions the verdict does not depend on the order. */
  lemma CanSafelySwapSymmetric(a: Instruction, b: Instruction, irrelevant: set<Id>)
    requires IsSupported(a) && IsSupported(b) && WellFormed(a) && WellFormed(b)
    ensures CanSafelySwap(a, b, irrelevant) == CanSafelySwap(b, a, irrelevant)
  {
    CanSafelySwapIffNoConflict(a, b, irrelevant);
    CanSafelySwapIffNoConflict(b, a, irrelevant);
  }

  /** Learning that more pointees are irrelevant never forbids a swap it allowed. */
  lemma MoreIrrelevanceAllowsMore(a: Instruction, b: Instruction, irrelevant: set<Id>, more: set<Id>)
    requires IsSupported(a) && WellFormed(a) && WellFormed(b)
    requires irrelevant <= more
    ensures MaySwap(a, b, irrelevant) ==> MaySwap(a, b, more)
  {
  }

  /** A simple instruction swaps with any successor, supported or not. */
  lemma SimpleSwapsWithAnything(a: Instruction, b: Instruction, irrelevant: set<Id>)
    requires IsSupported(a) && WellFormed(a) && WellFormed(b)
    ensures IsSimple(a) ==> MaySwap(a, b, irrelevant)
    ensures IsSupported(b) && IsSimple(b) ==> MaySwap(a, b, irrelevant)
  {
  }

  /** Nothing but a simple instruction swaps with an unsupported successor. */
  lemma OnlySimplePassesUnsupported(a: Instruction, b: Instruction, irrelevant: set<Id>)
    requires IsSupported(a) && WellFormed(a) && WellFormed(b)
    requires !IsSupported(b)
    ensures MaySwap(a, b, irrelevant) <==> IsSimple(a)
  {
  }

  /** A barrier never swaps with a barrier or a memory access, in either order. */
  lemma BarrierBlocksMemory(a: Instruction, b: Instruction, irrelevant: set<Id>)
    requires IsSupported(a) && WellFormed(a) && WellFormed(b)
    requires IsSupported(b) && !IsSimple(a) && !IsSimple(b)
    requires IsBarrier(a) || IsBarrier(b)
    ensures !MaySwap(a, b, irrelevant)
  {
  }

  /** Two instructions that only read memory always swap, whatever they read. */
  lemma ReadsCommute(a: Instruction, b: Instruction, irrelevant: set<Id>)
    requires WellFormed(a) && WellFormed(b)
    requires a.opcode == OpLoad && b.opcode == OpLoad
    ensures MaySwap(a, b, irrelevant)
  {
  }

  /** Two writes swap when either write target is irrelevant. */
  lemma IrrelevantWriteTargetAllows(a: Instruction, b: Instruction, irrelevant: set<Id>)
    requires WellFormed(a) && WellFormed(b) && WritesMemory(a) && WritesMemory(b)
    requires WriteTarget(a) in irrelevant || WriteTarget(b) in irrelevant
    ensures MaySwap(a, b, irrelevant)
  {
  }

  /** A read and a write of pointers none of which is irrelevant never swap,
      in either order: the pointers may alias. */
  lemma RelevantReadWriteBlocks(a: Instruction, b: Instruction, irrelevant: set<Id>)
    requires WellFormed(a) && WellFormed(b)
    requires a.opcode == OpLoad && WritesMemory(b)
    requires ReadTarget(a) !in irrelevant && WriteTarget(b) !in irrelevant
    ensures !MaySwap(a, b, irrelevant) && !MaySwap(b, a, irrelevant)
  {
  }

  /**
   * Two copies swap exactly when either write target is irrelevant or both
   * read sources are: otherwise one copy reads a relevant pointer the other
   * may write.
   */
  lemma CopiesSwapIff(a: Instruction, b: Instruction, irrelevant: set<Id>)
    requires WellFormed(a) && WellFormed(b)
    requires a.opcode == OpCopyMemory && b.opcode == OpCopyMemory
    ensures MaySwap(a, b, irrelevant) <==>
              WriteTarget(a) in irrelevant || WriteTarget(b) in irrelevant
              || (ReadTarget(a) in irrelevant && ReadTarget(b) in irrelevant)
  {
  }

  /** A load and a store swap, in either order, exactly when the loaded or the
      stored-to pointer is irrelevant. */
  lemma LoadAndStoreSwapIff(a: Instruction, b: Instruction, irrelevant: set<Id>)
    requires WellFormed(a) && WellFormed(b)
    requires a.opcode == OpLoad && b.opcode == OpStore
    ensures MaySwap(a, b, irrelevant) <==> ReadTarget(a) in irrelevant || WriteTarget(b) in irrelevant
    ensures MaySwap(b, a, irrelevant) <==> ReadTarget(a) in irrelevant || WriteTarget(b) in irrelevant
  {
  }

  /** A copy and a store swap, in either order, exactly when either write
      target or the copy's source is irrelevant. */
  lemma CopyAndStoreSwapIff(a: Instruction, b: Instruction, irrelevant: set<Id>)
    requires WellFormed(a) && WellFormed(b)
    requires a.opcode == OpCopyMemory && b.opcode == OpStore
    ensures MaySwap(a, b, irrelevant) <==>
              WriteTarget(a) in irrelevant || WriteTarget(b) in irrelevant || ReadTarget(a) in irrelevant
    ensures MaySwap(b, a, irrelevant) <==>
              WriteTarget(a) in irrelevant || WriteTarget(b) in irrelevant || ReadTarget(a) in irrelevant
  {
  }

  /** A load and a copy swap, in either order, exactly when the load's pointer
      or the copy's write target is irrelevant. */
  lemma LoadAndCopySwapIff(a: Instruction, b: Instruction, irrelevant: set<Id>)
    requires WellFormed(a) && WellFormed(b)
    requires a.opcode == OpLoad && b.opcode == OpCopyMemory
    ensures MaySwap(a, b, irrelevant) <==> ReadTarget(a) in irrelevant || WriteTarget(b) in irrelevant
    ensures MaySwap(b, a, irrelevant) <==> ReadTarget(a) in irrelevant || WriteTarget(b) in irrelevant
  {
  }

  /** Two stores swap exactly when either target is irrelevant. */
  lemma StoresSwapIff(a: Instruction, b: Instruction, irrelevant: set<Id>)
    requires WellFormed(a) && WellFormed(b)
    requires a.opcode == OpStore && b.opcode == OpStore
    ensures MaySwap(a, b, irrelevant) <==> WriteTarget(a) in irrelevant || WriteTarget(b) in irrelevant
  {
  }

  /** Two writes to relevant pointers with no read between them never swap. */
  lemma RelevantStoresBlock(a: Instruction, b: Instruction, irrelevant: set<Id>)
    requires WellFormed(a) && WellFormed(b)
    requires a.opcode == OpStore && b.opcode == OpStore
    requires WriteTarget(a) !in irrelevant && WriteTarget(b) !in irrelevant
    ensures !MaySwap(a, b, irrelevant)
  {
  }
}
