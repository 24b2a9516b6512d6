/**
 * The instruction descriptor of the transformation's record and its
 * resolution inside one basic block.  A descriptor names a base id (a result
 * id, or the block's label), a target opcode, and how many instructions with
 * that opcode to skip, counting from the base instruction itself.
 */
module Resolver {
  import opened Wrappers
  import opened Instructions

  datatype InstructionDescriptor = InstructionDescriptor(baseId: Id, targetOpcode: Opcode, skip: nat)

  /** How many instructions of `s` have opcode `op`. */
  function CountOpcode(s: seq<Instruction>, op: Opcode): nat
  {
    if s == [] then 0
    else (if s[0].opcode == op then 1 else 0) + CountOpcode(s[1..], op)
  }

  lemma {:induction false} CountOpcodeSnoc(s: seq<Instruction>, x: Instruction, op: Opcode)
    ensures CountOpcode(s + [x], op) == CountOpcode(s, op) + (if x.opcode == op then 1 else 0)
  {
    if s != [] {
      assert (s + [x])[1..] == s[1..] + [x];
      CountOpcodeSnoc(s[1..], x, op);
    }
  }

  lemma {:induction false} CountOpcodeAbsent(s: seq<Instruction>, op: Opcode)
    requires forall k :: 0 <= k < |s| ==> s[k].opcode != op
    ensures CountOpcode(s, op) == 0
  {
    if s != [] {
      CountOpcodeAbsent(s[1..], op);
    }
  }

  lemma {:induction false} CountOpcodeAppend(a: seq<Instruction>, b: seq<Instruction>, op: Opcode)
    ensures CountOpcode(a + b, op) == CountOpcode(a, op) + CountOpcode(b, op)
  {
    if a != [] {
      assert (a + b)[1..] == a[1..] + b;
      CountOpcodeAppend(a[1..], b, op);
    } else {
      assert a + b == b;
    }
  }

  /** Counting over two adjacent ranges adds up. */
  lemma CountOpcodeSplit(s: seq<Instruction>, i: nat, j: nat, k: nat, op: Opcode)
    requires i <= j <= k <= |s|
    ensures CountOpcode(s[i..k], op) == CountOpcode(s[i..j], op) + CountOpcode(s[j..k], op)
  {
    assert s[i..k] == s[i..j] + s[j..k];
    CountOpcodeAppend(s[i..j], s[j..k], op);
  }

  lemma CountOpcodeSliceSnoc(s: seq<Instruction>, i: nat, j: nat, op: Opcode)
    requires i < j <= |s|
    ensures CountOpcode(s[i..j], op) == CountOpcode(s[i..j - 1], op) + (if s[j - 1].opcode == op then 1 else 0)
  {
    assert s[i..j] == s[i..j - 1] + [s[j - 1]];
    CountOpcodeSnoc(s[i..j - 1], s[j - 1], op);
  }

  /** The count over positions i to j is the number of positions listed in
      `hits`, when `hits` lists, in increasing order, exactly the positions
      in that range whose instruction has opcode `op`. */
  lemma {:induction false} CountInRange(s: seq<Instruction>, i: nat, j: nat, op: Opcode, hits: seq<nat>)
    requires i <= j <= |s|
    requires forall m, n :: 0 <= m < n < |hits| ==> hits[m] < hits[n]
    requires forall m :: 0 <= m < |hits| ==> i <= hits[m] < j
    requires forall k :: i <= k < j ==> (s[k].opcode == op <==> k in hits)
    ensures CountOpcode(s[i..j], op) == |hits|
  {
    if i == j {
      assert |hits| == 0;
    } else {
      CountOpcodeSliceSnoc(s, i, j, op);
      if hits != [] && hits[|hits| - 1] == j - 1 {
        var rest := hits[..|hits| - 1];
        assert forall k :: k in hits && k != j - 1 ==> k in rest;
        CountInRange(s, i, j - 1, op, rest);
      } else {
        CountInRange(s, i, j - 1, op, hits);
      }
    }
  }

  /** The index of the first instruction of `s` with result id `id`. */
  function FirstWithResult(s: seq<Instruction>, id: Id): (r: Option<nat>)
    ensures r.Some? ==> r.value < |s| && s[r.value].result == Some(id)
                        && forall k :: 0 <= k < r.value ==> s[k].result != Some(id)
    ensures r.None? ==> forall k :: 0 <= k < |s| ==> s[k].result != Some(id)
  {
    if s == [] then None
    else if s[0].result == Some(id) then Some(0)
    else match FirstWithResult(s[1..], id)
      case None => None
      case Some(k) => Some(k + 1)
  }

  /** The index of the instruction of `s` with opcode `op` that has exactly
      `n` instructions with that opcode before it. */
  function NthWithOpcode(s: seq<Instruction>, op: Opcode, n: nat): (r: Option<nat>)
    ensures r.Some? ==> r.value < |s| && s[r.value].opcode == op
                        && CountOpcode(s[..r.value], op) == n
    ensures r.None? <==> CountOpcode(s, op) <= n
  {
    if s == [] then None
    else
      var rest := NthWithOpcode(s[1..], op, if s[0].opcode == op && 0 < n then n - 1 else n);
      if s[0].opcode == op && n == 0 then
        assert s[..0] == [];
        Some(0)
      else match rest
        case None => None
        case Some(k) =>
          assert s[..k + 1][1..] == s[1..][..k];
          Some(k + 1)
  }

  /** The n-th instruction with a given opcode is the only one with n of them before it. */
  lemma {:induction false} NthWithOpcodeUnique(s: seq<Instruction>, op: Opcode, n: nat, j: nat)
    requires j < |s| && s[j].opcode == op && CountOpcode(s[..j], op) == n
    ensures NthWithOpcode(s, op, n) == Some(j)
  {
    if j == 0 {
      assert s[..0] == [];
    } else {
      assert s[..j][1..] == s[1..][..j - 1];
      var m := if s[0].opcode == op then n - 1 else n;
      NthWithOpcodeUnique(s[1..], op, m, j - 1);
    }
  }

  /**
   * Where the search for the target starts: at the top of the block when the
   * base is its label, else at the instruction whose result id is the base.
   */
  function SearchStart(labelId: Id, body: seq<Instruction>, base: Id): (r: Option<nat>)
    ensures r.Some? ==> r.value <= |body|
  {
    if labelId == base then Some(0) else FirstWithResult(body, base)
  }

  /** The position in the block the descriptor names, if any. */
  function Resolve(labelId: Id, body: seq<Instruction>, d: InstructionDescriptor): (r: Option<nat>)
    ensures r.Some? ==> r.value < |body| && body[r.value].opcode == d.targetOpcode
  {
    match SearchStart(labelId, body, d.baseId)
    case None => None
    case Some(start) =>
      match NthWithOpcode(body[start..], d.targetOpcode, d.skip)
      case None => None
      case Some(k) => Some(start + k)
  }

  /**
   * Resolution counts skips from the base: position t is named exactly when it
   * lies at or after the base, has the target opcode, and exactly `skip`
   * instructions with that opcode lie between the base and it.
   */
  lemma ResolveCountsFromBase(labelId: Id, body: seq<Instruction>, d: InstructionDescriptor, start: nat, t: nat)
    requires SearchStart(labelId, body, d.baseId) == Some(start)
    ensures Resolve(labelId, body, d) == Some(t) <==>
              start <= t < |body| && body[t].opcode == d.targetOpcode
              && CountOpcode(body[start..t], d.targetOpcode) == d.skip
  {
    if start <= t < |body| {
      assert body[start..][..t - start] == body[start..t];
      if body[t].opcode == d.targetOpcode && CountOpcode(body[start..t], d.targetOpcode) == d.skip {
        NthWithOpcodeUnique(body[start..], d.targetOpcode, d.skip, t - start);
      }
    }
    if Resolve(labelId, body, d) == Some(t) {
      var k := NthWithOpcode(body[start..], d.targetOpcode, d.skip).value;
      assert body[start..][..k] == body[start..t];
    }
  }

  /**
   * A descriptor names position t when the base sits at position `start`
   * (or is the label, with start 0) and `skip` instructions with the target
   * opcode lie between the base and t.
   */
  lemma ResolvesTo(labelId: Id, body: seq<Instruction>, d: InstructionDescriptor, start: nat, t: nat)
    requires start <= t < |body|
    requires labelId == d.baseId ==> start == 0
    requires labelId != d.baseId ==> body[start].result == Some(d.baseId)
    requires forall k :: 0 <= k < start ==> body[k].result != Some(d.baseId)
    requires body[t].opcode == d.targetOpcode
    requires CountOpcode(body[start..t], d.targetOpcode) == d.skip
    ensures Resolve(labelId, body, d) == Some(t)
  {
    assert SearchStart(labelId, body, d.baseId) == Some(start);
    ResolveCountsFromBase(labelId, body, d, start, t);
  }

  /** A descriptor names nothing when, from the base on, at most `skip`
      instructions have the target opcode. */
  lemma ResolvesToNothing(labelId: Id, body: seq<Instruction>, d: InstructionDescriptor, start: nat)
    requires start <= |body|
    requires labelId == d.baseId ==> start == 0
    requires labelId != d.baseId ==> start < |body| && body[start].result == Some(d.baseId)
    requires forall k :: 0 <= k < start ==> body[k].result != Some(d.baseId)
    requires CountOpcode(body[start..|body|], d.targetOpcode) <= d.skip
    ensures Resolve(labelId, body, d) == None
  {
    assert SearchStart(labelId, body, d.baseId) == Some(start);
    assert body[start..|body|] == body[start..];
  }

  /** A descriptor whose base id is neither the label nor any result id of the block names nothing. */
  lemma UnknownBaseNamesNothing(labelId: Id, body: seq<Instruction>, d: InstructionDescriptor)
    requires d.baseId != labelId
    requires forall k :: 0 <= k < |body| ==> body[k].result != Some(d.baseId)
    ensures Resolve(labelId, body, d) == None
  {
  }

  /**
   * The search of the source: walk the block once, note when the base is
   * passed, and from then on count the instructions with the target opcode.
   */
  method FindInstruction(labelId: Id, body: seq<Instruction>, d: InstructionDescriptor) returns (r: Option<nat>)
    ensures r == Resolve(labelId, body, d)
  {
    var foundBase := labelId == d.baseId;
    ghost var start := 0;
    var ignored: nat := 0;
    var k := 0;
    while k < |body|
      invariant 0 <= k <= |body|
      invariant !foundBase ==> labelId != d.baseId && ignored == 0
      invariant !foundBase ==> forall j :: 0 <= j < k ==> body[j].result != Some(d.baseId)
      invariant foundBase ==> SearchStart(labelId, body, d.baseId) == Some(start) && start <= k
      invariant foundBase ==> ignored == CountOpcode(body[start..k], d.targetOpcode) <= d.skip
    {
      if !foundBase && body[k].result == Some(d.baseId) {
        foundBase := true;
        start := k;
      }
      if foundBase {
        assert body[start..k + 1] == body[start..k] + [body[k]];
        CountOpcodeSnoc(body[start..k], body[k], d.targetOpcode);
        if body[k].opcode == d.targetOpcode {
          if ignored == d.skip {
            ResolveCountsFromBase(labelId, body, d, start, k);
            return Some(k);
          }
          ignored := ignored + 1;
        }
      }
      k := k + 1;
    }
    if foundBase {
      assert body[start..k] == body[start..];
    }
    return None;
  }
}
