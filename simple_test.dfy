/**
 * HandlesSimpleInstructions: a simple instruction passes a barrier, a load
 * and another simple instruction, and each of those passes it back.
 */
module SimpleInstructionsTest {
  import opened Wrappers
  import opened Instructions
  import opened Resolver
  import opened MoveDown
  import opened TestShaders

  const Block5: seq<Instruction> := [
    VariableInit(21, 7),
    CopyObject(40, 7),
    MemoryBarrier(7, 7),
    CopyObject(41, 7),
    Load(22, 21),
    CopyObject(23, 7),
    CopyObject(42, 7),
    Return
  ]

  const Block5After: seq<Instruction> := [
    VariableInit(21, 7),
    CopyObject(40, 7),
    MemoryBarrier(7, 7),
    CopyObject(41, 7),
    Load(22, 21),
    CopyObject(42, 7),
    CopyObject(23, 7),
    Return
  ]

  const Block13: seq<Instruction> := [Return]

  lemma Block5Valid()
    ensures ValidBody(Block5)
  {
  }

  lemma Windows()
    ensures AllWellFormed(Block5)
    ensures CanMoveDownAt(Block5, 1, {}) && CanMoveDownAt(Block5, 3, {}) && CanMoveDownAt(Block5, 5, {})
    ensures IsSupported(Block5[2]) && !DependsOn(Block5[1], Block5[2])
    ensures IsSupported(Block5[4]) && !DependsOn(Block5[3], Block5[4])
  {
  }

  lemma BarrierBackResolves()
    ensures Resolve(5, Swapped(Block5, 1), Desc(21, OpMemoryBarrier, 0)) == Some(1)
  {
    CountInRange(Swapped(Block5, 1), 0, 1, OpMemoryBarrier, []);
    ResolvesTo(5, Swapped(Block5, 1), Desc(21, OpMemoryBarrier, 0), 0, 1);
  }

  lemma LoadBackResolves()
    ensures Resolve(5, Swapped(Block5, 3), Desc(22, OpLoad, 0)) == Some(3)
  {
    ResolvesTo(5, Swapped(Block5, 3), Desc(22, OpLoad, 0), 3, 3);
  }

  lemma Resolves40()
    ensures Resolve(5, Block5, Desc(40, OpCopyObject, 0)) == Some(1)
  {
    ResolvesTo(5, Block5, Desc(40, OpCopyObject, 0), 1, 1);
  }

  lemma Resolves41()
    ensures Resolve(5, Block5, Desc(41, OpCopyObject, 0)) == Some(3)
  {
    ResolvesTo(5, Block5, Desc(41, OpCopyObject, 0), 3, 3);
  }

  lemma Resolves23()
    ensures Resolve(5, Block5, Desc(23, OpCopyObject, 0)) == Some(5)
  {
    ResolvesTo(5, Block5, Desc(23, OpCopyObject, 0), 5, 5);
  }

  /** %40 passes the barrier, and (21, OpMemoryBarrier, 0) then moves the barrier back. */
  lemma CopyObjectAndBarrier()
    ensures Resolve(5, Block5, Desc(40, OpCopyObject, 0)) == Some(1)
    ensures AllWellFormed(Block5) && IsApplicable(5, Block5, Desc(40, OpCopyObject, 0), {})
    ensures Resolve(5, Swapped(Block5, 1), Desc(21, OpMemoryBarrier, 0)) == Some(1)
    ensures AllWellFormed(Swapped(Block5, 1))
    ensures IsApplicable(5, Swapped(Block5, 1), Desc(21, OpMemoryBarrier, 0), {})
  {
    Windows();
    Resolves40();
    BarrierBackResolves();
    MoveThenMoveBack(5, Block5, Desc(40, OpCopyObject, 0), Desc(21, OpMemoryBarrier, 0), {}, 1);
  }

  /** %41 passes %22 = OpLoad, and (22, OpLoad, 0) then moves the load back. */
  lemma CopyObjectAndLoad()
    ensures Resolve(5, Block5, Desc(41, OpCopyObject, 0)) == Some(3)
    ensures AllWellFormed(Block5) && IsApplicable(5, Block5, Desc(41, OpCopyObject, 0), {})
    ensures Resolve(5, Swapped(Block5, 3), Desc(22, OpLoad, 0)) == Some(3)
    ensures AllWellFormed(Swapped(Block5, 3))
    ensures IsApplicable(5, Swapped(Block5, 3), Desc(22, OpLoad, 0), {})
  {
    Windows();
    Resolves41();
    LoadBackResolves();
    MoveThenMoveBack(5, Block5, Desc(41, OpCopyObject, 0), Desc(22, OpLoad, 0), {}, 3);
  }

  /** %23 passes %42. */
  lemma TwoCopyObjects()
    ensures Resolve(5, Block5, Desc(23, OpCopyObject, 0)) == Some(5)
    ensures AllWellFormed(Block5) && IsApplicable(5, Block5, Desc(23, OpCopyObject, 0), {})
  {
    Windows();
    Resolves23();
    ApplicableAt(5, Block5, Desc(23, OpCopyObject, 0), {}, 5);
  }

  lemma MovedBlock()
    ensures Swapped(Block5, 5) == Block5After
  {
    assert forall k :: 0 <= k < 8 ==> Swapped(Block5, 5)[k] == Block5After[k];
  }

  method NewBlock5() returns (b: Block)
    ensures fresh(b) && b.Valid() && b.labelId == 5 && b.instructions == Block5
  {
    Block5Valid();
    b := new Block(5, Block5);
  }

  method NewBlock13() returns (b: Block)
    ensures fresh(b) && b.Valid() && b.labelId == 13 && b.instructions == Block13
  {
    b := new Block(13, Block13);
  }

  /** The five moves in order: the first four undo each other in pairs, the
      last one stays. */
  method PastBarrierAndBack(b5: Block)
    requires b5.Valid() && b5.labelId == 5 && b5.instructions == Block5
    modifies b5
    ensures b5.Valid() && b5.instructions == Block5
  {
    CopyObjectAndBarrier();
    MoveAndMoveBack(b5, Desc(40, OpCopyObject, 0), Desc(21, OpMemoryBarrier, 0), {}, 1);
  }

  method PastLoadAndBack(b5: Block)
    requires b5.Valid() && b5.labelId == 5 && b5.instructions == Block5
    modifies b5
    ensures b5.Valid() && b5.instructions == Block5
  {
    CopyObjectAndLoad();
    MoveAndMoveBack(b5, Desc(41, OpCopyObject, 0), Desc(22, OpLoad, 0), {}, 3);
  }

  method PastCopyObject(b5: Block)
    requires b5.Valid() && b5.labelId == 5 && b5.instructions == Block5
    modifies b5
    ensures b5.Valid() && b5.instructions == Block5After
  {
    TwoCopyObjects();
    MovedBlock();
    b5.Apply(Desc(23, OpCopyObject, 0), {});
  }

  method Scenario() returns (b5: Block, b13: Block)
    ensures b5.instructions == Block5After && b13.instructions == Block13
  {
    b5 := NewBlock5();
    b13 := NewBlock13();
    PastBarrierAndBack(b5);
    PastLoadAndBack(b5);
    PastCopyObject(b5);
  }
}
