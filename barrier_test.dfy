/**
 * HandlesBarrierInstructions: a barrier passes neither a barrier nor a
 * load, in either order; a simple instruction and a barrier pass each other.
 */
module BarrierInstructionsTest {
  import opened Wrappers
  import opened Instructions
  import opened Resolver
  import opened MoveDown
  import opened TestShaders

  const Block5: seq<Instruction> := [
    VariableInit(21, 7),
    MemoryBarrier(7, 7),
    MemoryBarrier(7, 7),
    MemoryBarrier(7, 7),
    Load(22, 21),
    MemoryBarrier(7, 7),
    CopyObject(23, 7),
    MemoryBarrier(7, 7),
    Return
  ]

  const Block13: seq<Instruction> := [Return]

  lemma Block5Valid()
    ensures ValidBody(Block5)
  {
  }

  lemma Windows()
    ensures AllWellFormed(Block5)
    ensures !CanMoveDownAt(Block5, 1, {}) && !CanMoveDownAt(Block5, 3, {}) && !CanMoveDownAt(Block5, 4, {})
    ensures CanMoveDownAt(Block5, 6, {})
    ensures IsSupported(Block5[7]) && !DependsOn(Block5[6], Block5[7])
  {
  }

  /** (21, OpMemoryBarrier, 0) names the first barrier; the next one is a barrier too. */
  lemma BarrierBeforeBarrier()
    ensures Resolve(5, Block5, Desc(21, OpMemoryBarrier, 0)) == Some(1)
    ensures AllWellFormed(Block5) && !IsApplicable(5, Block5, Desc(21, OpMemoryBarrier, 0), {})
  {
    Windows();
    CountInRange(Block5, 0, 1, OpMemoryBarrier, []);
    ResolvesTo(5, Block5, Desc(21, OpMemoryBarrier, 0), 0, 1);
    ApplicableAt(5, Block5, Desc(21, OpMemoryBarrier, 0), {}, 1);
  }

  /** (21, OpMemoryBarrier, 2) names the third barrier, which precedes %22 = OpLoad. */
  lemma BarrierBeforeLoad()
    ensures Resolve(5, Block5, Desc(21, OpMemoryBarrier, 2)) == Some(3)
    ensures AllWellFormed(Block5) && !IsApplicable(5, Block5, Desc(21, OpMemoryBarrier, 2), {})
  {
    Windows();
    CountInRange(Block5, 0, 3, OpMemoryBarrier, [1, 2]);
    ResolvesTo(5, Block5, Desc(21, OpMemoryBarrier, 2), 0, 3);
    ApplicableAt(5, Block5, Desc(21, OpMemoryBarrier, 2), {}, 3);
  }

  /** %22 = OpLoad may not pass the barrier after it. */
  lemma LoadBeforeBarrier()
    ensures Resolve(5, Block5, Desc(22, OpLoad, 0)) == Some(4)
    ensures AllWellFormed(Block5) && !IsApplicable(5, Block5, Desc(22, OpLoad, 0), {})
  {
    Windows();
    ResolvesTo(5, Block5, Desc(22, OpLoad, 0), 4, 4);
    ApplicableAt(5, Block5, Desc(22, OpLoad, 0), {}, 4);
  }

  lemma CopyObjectResolvesBothWays()
    ensures Resolve(5, Block5, Desc(23, OpCopyObject, 0)) == Some(6)
    ensures Resolve(5, Swapped(Block5, 6), Desc(22, OpMemoryBarrier, 1)) == Some(6)
  {
    ResolvesTo(5, Block5, Desc(23, OpCopyObject, 0), 6, 6);
    CountInRange(Swapped(Block5, 6), 4, 6, OpMemoryBarrier, [5]);
    ResolvesTo(5, Swapped(Block5, 6), Desc(22, OpMemoryBarrier, 1), 4, 6);
  }

  /** %23 = OpCopyObject passes the barrier after it, and then (22,
      OpMemoryBarrier, 1) names that barrier, which moves back below %23. */
  lemma CopyObjectAndBarrier()
    ensures Resolve(5, Block5, Desc(23, OpCopyObject, 0)) == Some(6)
    ensures AllWellFormed(Block5) && IsApplicable(5, Block5, Desc(23, OpCopyObject, 0), {})
    ensures Resolve(5, Swapped(Block5, 6), Desc(22, OpMemoryBarrier, 1)) == Some(6)
    ensures AllWellFormed(Swapped(Block5, 6))
    ensures IsApplicable(5, Swapped(Block5, 6), Desc(22, OpMemoryBarrier, 1), {})
  {
    Windows();
    CopyObjectResolvesBothWays();
    MoveThenMoveBack(5, Block5, Desc(23, OpCopyObject, 0), Desc(22, OpMemoryBarrier, 1), {}, 6);
  }

  method PastBarrierAndBack(b5: Block)
    requires b5.Valid() && b5.labelId == 5 && b5.instructions == Block5
    modifies b5
    ensures b5.Valid() && b5.instructions == Block5
  {
    CopyObjectAndBarrier();
    MoveAndMoveBack(b5, Desc(23, OpCopyObject, 0), Desc(22, OpMemoryBarrier, 1), {}, 6);
  }

  method NewBlock5() returns (b: Block)
    ensures fresh(b) && b.Valid() && b.labelId == 5 && b.instructions == Block5
  {
    Block5Valid();
    b := new Block(5, Block5);
  }

  method NewBlock13() returns (b: Block)
    ensures fresh(b) && b.Valid() && b.labelId == 13 && b.instructions == Block13
  {
    b := new Block(13, Block13);
  }

  /** The two moves leave the module as it was. */
  method Scenario() returns (b5: Block, b13: Block)
    ensures b5.instructions == Block5 && b13.instructions == Block13
  {
    b5 := NewBlock5();
    b13 := NewBlock13();
    PastBarrierAndBack(b5);
  }
}
