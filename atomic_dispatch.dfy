/**
 * atomic_add_g and atomic_max_g: which (element type, vector width N) combinations are accepted,
 * and how an N-wide thread buffer is split into per-word atomic operations at consecutive
 * addresses — hardware atomicAdd / atomicMax on one float, double, int32 or uint32, or the
 * compare-and-swap loop of PackedAtomics on one 32-bit word of packed bf16 or fp8 lanes.
 *
 * Memory is seen element by element: element i of the destination sits at byte
 * i * SizeOf(t) from p_dst, and each atomic operation covers a run of consecutive elements.
 */
module AtomicDispatch {
  import opened Outcomes
  import PackedAtomics

  /** The element types the tables name, and two that they do not (half and int8). */
  datatype ElemType = Int32 | UInt32 | Float | Double | Bf16 | Fp8 | Bf8 | Half | Int8

  function SizeOf(t: ElemType): nat {
    match t
    case Int32 => 4
    case UInt32 => 4
    case Float => 4
    case Double => 8
    case Bf16 => 2
    case Fp8 => 1
    case Bf8 => 1
    case Half => 2
    case Int8 => 1
  }

  /** Why an instantiation does not build. */
  datatype BuildError =
    | NotImplemented                              // the static_assert "wrong! not implemented" fires
    | NoSpecialization(packing: PackedAtomics.Packing) // atomic_add<X> is called for an X with only a declaration
    | IllFormedCondition                          // the static_assert condition itself does not compile
    | ReturnsValueInVoid                          // the instantiated branch returns a value from the void function

  /** One atomic operation: its kind, its byte offset from p_dst, and the elements it covers. */
  datatype AtomicKind = HwAdd | HwMax | CasAdd(packing: PackedAtomics.Packing)
  datatype AtomicOp = AtomicOp(kind: AtomicKind, byteOffset: nat, firstLane: nat, lanes: nat)

  // ---------------------------------------------------------------- the support tables

  /** The combinations atomic_add_g accepts, with the clauses joined by || as intended. */
  predicate AddSupported(t: ElemType, n: int) {
    (t == Int32 && n == 1) ||
    (t == UInt32 && n == 1) ||
    (t == Float && (n == 1 || n == 2)) ||
    (t == Double && (n == 1 || n == 2)) ||
    (t == Bf16 && (n == 2 || n == 4)) ||
    (t == Fp8 && n == 4) ||
    (t == Bf8 && n == 4)
  }

  /** The combinations atomic_max_g accepts. */
  predicate MaxSupported(t: ElemType, n: int) {
    (t == Int32 && n == 1) ||
    (t == UInt32 && n == 1) ||
    (t == Float && (n == 1 || n == 2)) ||
    (t == Double && n == 1)
  }

  /**
   * The static_assert of atomic_add_g as written: the bf16 clause is followed directly by the
   * parenthesised fp8 clause with no operator between them, which C++ reads as calling a bool.
   * The condition depends on T and N, so it is checked at each instantiation, and whatever T and
   * N are, the callee is a bool, so it fails to compile at every one.
   */
  function AddConditionAsWritten(t: ElemType, n: int): Result<bool, BuildError> {
    Err(IllFormedCondition)
  }

  /** As written, even the plain float N=1 case, which the intended table accepts, does not build. */
  lemma AddConditionAsWrittenRejectsFloat()
    ensures AddSupported(Float, 1)
    ensures AddConditionAsWritten(Float, 1) == Err(IllFormedCondition)
  {
  }

  /** As written, no instantiation of atomic_add_g builds. */
  lemma AddConditionAsWrittenRejectsAll(t: ElemType, n: int)
    ensures AddConditionAsWritten(t, n).Err?
  {
  }

  // ---------------------------------------------------------------- splitting into atomics

  /**
   * The operations the if-constexpr chain of atomic_add_g issues for a supported combination,
   * in program order. float*, double*, bf16x2_t* and fp8x4_t* pointer arithmetic gives the
   * byte offsets.
   */
  function AddOps(t: ElemType, n: int): seq<AtomicOp> {
    match t
    case Float =>
      if n == 1 then [AtomicOp(HwAdd, 0, 0, 1)]
      else if n == 2 then [AtomicOp(HwAdd, 0, 0, 1), AtomicOp(HwAdd, 4, 1, 1)]
      else []
    case Double =>
      if n == 1 then [AtomicOp(HwAdd, 0, 0, 1)]
      else if n == 2 then [AtomicOp(HwAdd, 0, 0, 1), AtomicOp(HwAdd, 8, 1, 1)]
      else []
    case Int32 => if n == 1 then [AtomicOp(HwAdd, 0, 0, 1)] else []
    case UInt32 => if n == 1 then [AtomicOp(HwAdd, 0, 0, 1)] else []
    case Bf16 =>
      if n == 2 then [AtomicOp(CasAdd(PackedAtomics.Bf16x2), 0, 0, 2)]
      else if n == 4 then [AtomicOp(CasAdd(PackedAtomics.Bf16x2), 0, 0, 2), AtomicOp(CasAdd(PackedAtomics.Bf16x2), 4, 2, 2)]
      else []
    case Fp8 => if n == 4 then [AtomicOp(CasAdd(PackedAtomics.Fp8x4), 0, 0, 4)] else []
    case Bf8 => if n == 4 then [AtomicOp(CasAdd(PackedAtomics.Bf8x4), 0, 0, 4)] else []
    case _ => []
  }

  /**
   * The if-constexpr chain of atomic_add_g as written: the double N=1 branch is
   * `return atomicAdd(...)`, which returns atomicAdd's double result from a function declared
   * void. That branch is compiled only for atomic_add_g<double, 1>, and there it is ill-formed;
   * every other branch issues the operations of AddOps.
   */
  function AddBodyAsWritten(t: ElemType, n: int): Result<seq<AtomicOp>, BuildError> {
    if t == Double && n == 1 then Err(ReturnsValueInVoid) else Ok(AddOps(t, n))
  }

  /**
   * As written, double N=1, which the intended table accepts, does not compile; corrected to a
   * plain call, as in the float N=1 branch, it is one hardware atomicAdd on element 0.
   */
  lemma AddBodyAsWrittenRejectsDouble()
    ensures AddSupported(Double, 1)
    ensures AddBodyAsWritten(Double, 1) == Err(ReturnsValueInVoid)
    ensures AddPlan(Double, 1) == Ok([AtomicOp(HwAdd, 0, 0, 1)])
  {
  }

  /** As written, the body is ill-formed exactly for double N=1 and otherwise issues AddOps. */
  lemma AddBodyAsWrittenOutcome(t: ElemType, n: int)
    ensures AddBodyAsWritten(t, n) == Err(ReturnsValueInVoid) <==> t == Double && n == 1
    ensures !(t == Double && n == 1) ==> AddBodyAsWritten(t, n) == Ok(AddOps(t, n))
  {
  }

  /** The operations atomic_max_g issues for a supported combination. */
  function MaxOps(t: ElemType, n: int): seq<AtomicOp> {
    match t
    case Float =>
      if n == 1 then [AtomicOp(HwMax, 0, 0, 1)]
      else if n == 2 then [AtomicOp(HwMax, 0, 0, 1), AtomicOp(HwMax, 4, 1, 1)]
      else []
    case Double => if n == 1 then [AtomicOp(HwMax, 0, 0, 1)] else []
    case Int32 => if n == 1 then [AtomicOp(HwMax, 0, 0, 1)] else []
    case UInt32 => if n == 1 then [AtomicOp(HwMax, 0, 0, 1)] else []
    case _ => []
  }

  /** A packing whose CAS-loop atomic_add is called but has no specialization, if any. */
  function MissingSpecialization(ops: seq<AtomicOp>): Option<PackedAtomics.Packing> {
    if |ops| == 0 then None
    else if ops[0].kind.CasAdd? && !PackedAtomics.HasCasLoop(ops[0].kind.packing) then Some(ops[0].kind.packing)
    else MissingSpecialization(ops[1..])
  }

  /**
   * Instantiating atomic_add_g<T, N> as intended (the static_assert clauses joined by ||, and
   * the double N=1 branch a plain call, see AddConditionAsWritten and AddBodyAsWritten): rejected
   * by the static_assert unless supported, then rejected when it calls an atomic_add without a
   * definition; otherwise the operations it performs.
   */
  function AddPlan(t: ElemType, n: int): Result<seq<AtomicOp>, BuildError> {
    if !AddSupported(t, n) then Err(NotImplemented)
    else match MissingSpecialization(AddOps(t, n))
      case Some(k) => Err(NoSpecialization(k))
      case None => Ok(AddOps(t, n))
  }

  /** Instantiating atomic_max_g<T, N>. */
  function MaxPlan(t: ElemType, n: int): Result<seq<AtomicOp>, BuildError> {
    if !MaxSupported(t, n) then Err(NotImplemented) else Ok(MaxOps(t, n))
  }

  /**
   * The operations cover the elements 0 .. n-1 in order, each exactly once: each starts where
   * the previous one ended, the last ends at n, and each sits at byte firstLane * SizeOf(t).
   * A hardware atomic covers one element; a CAS covers exactly one 32-bit word of lanes.
   */
  predicate Tiles(t: ElemType, n: int, ops: seq<AtomicOp>) {
    |ops| >= 1 &&
    ops[0].firstLane == 0 &&
    ops[|ops| - 1].firstLane + ops[|ops| - 1].lanes == n &&
    (forall j :: 0 < j < |ops| ==> ops[j].firstLane == ops[j - 1].firstLane + ops[j - 1].lanes) &&
    (forall j :: 0 <= j < |ops| ==> ops[j].byteOffset == ops[j].firstLane * SizeOf(t)) &&
    (forall j :: 0 <= j < |ops| ==>
      match ops[j].kind
      case CasAdd(k) => ops[j].lanes == PackedAtomics.Lanes(k) && ops[j].lanes * SizeOf(t) == 4
      case _ => ops[j].lanes == 1)
  }

  /** A single operation over all n elements tiles them. */
  lemma TilesSingle(t: ElemType, n: int, op: AtomicOp)
    requires op.firstLane == 0 && op.byteOffset == 0 && op.lanes == n
    requires if op.kind.CasAdd? then op.lanes == PackedAtomics.Lanes(op.kind.packing) && op.lanes * SizeOf(t) == 4 else op.lanes == 1
    ensures Tiles(t, n, [op])
  {
  }

  /** Two equal halves, the second at byte h * SizeOf(t), tile 2 * h elements. */
  lemma TilesPair(t: ElemType, h: nat, kind: AtomicKind)
    requires if kind.CasAdd? then h == PackedAtomics.Lanes(kind.packing) && h * SizeOf(t) == 4 else h == 1
    ensures Tiles(t, 2 * h, [AtomicOp(kind, 0, 0, h), AtomicOp(kind, h * SizeOf(t), h, h)])
  {
  }

  /**
   * atomic_add_g with both defects corrected (the clauses of the static_assert joined by ||, and
   * the double N=1 branch a plain call): it builds exactly for the supported combinations other
   * than bf8 N=4, which calls atomic_add<bf8x4_t>; the static_assert rejects everything outside
   * the table. Double N=1 is among the combinations that build.
   */
  lemma AddPlanOutcome(t: ElemType, n: int)
    ensures AddPlan(t, n) == Err(NotImplemented) <==> !AddSupported(t, n)
    ensures AddPlan(t, n) == Err(NoSpecialization(PackedAtomics.Bf8x4)) <==> t == Bf8 && n == 4
    ensures AddPlan(t, n).Ok? <==> AddSupported(t, n) && !(t == Bf8 && n == 4)
    ensures AddPlan(t, n).Ok? ==> AddPlan(t, n).value == AddOps(t, n)
  {
  }

  /** When atomic_add_g builds, its one or two operations tile the N elements. */
  lemma AddPlanTiles(t: ElemType, n: int)
    requires AddPlan(t, n).Ok?
    ensures Tiles(t, n, AddPlan(t, n).value) && |AddPlan(t, n).value| <= 2
  {
    var ops := AddPlan(t, n).value;
    assert ops == AddOps(t, n);
    if |ops| == 1 {
      TilesSingle(t, n, ops[0]);
      assert ops == [ops[0]];
    } else if t == Bf16 {
      TilesPair(t, 2, CasAdd(PackedAtomics.Bf16x2));
    } else {
      TilesPair(t, 1, HwAdd);
    }
  }

  /** atomic_max_g builds exactly for its table, uses hardware atomicMax only, and tiles the N elements. */
  lemma MaxPlanOutcome(t: ElemType, n: int)
    ensures MaxPlan(t, n).Ok? <==> MaxSupported(t, n)
    ensures MaxPlan(t, n).Ok? ==> Tiles(t, n, MaxPlan(t, n).value) && |MaxPlan(t, n).value| <= 2
    ensures MaxPlan(t, n).Ok? ==> forall j :: 0 <= j < |MaxPlan(t, n).value| ==> MaxPlan(t, n).value[j].kind == HwMax
  {
    if MaxSupported(t, n) {
      var ops := MaxPlan(t, n).value;
      if |ops| == 1 {
        TilesSingle(t, n, ops[0]);
        assert ops == [ops[0]];
      } else {
        TilesPair(t, 1, HwMax);
      }
    }
  }

  /** The word-sized splits: bf16 N=4 is two bf16x2 CAS loops, float and double N=2 two hardware atomics. */
  lemma SplitsOfWideBuffers()
    ensures AddPlan(Bf16, 4) == Ok([AtomicOp(CasAdd(PackedAtomics.Bf16x2), 0, 0, 2), AtomicOp(CasAdd(PackedAtomics.Bf16x2), 4, 2, 2)])
    ensures AddPlan(Float, 2) == Ok([AtomicOp(HwAdd, 0, 0, 1), AtomicOp(HwAdd, 4, 1, 1)])
    ensures AddPlan(Double, 2) == Ok([AtomicOp(HwAdd, 0, 0, 1), AtomicOp(HwAdd, 8, 1, 1)])
    ensures MaxPlan(Float, 2) == Ok([AtomicOp(HwMax, 0, 0, 1), AtomicOp(HwMax, 4, 1, 1)])
    ensures AddPlan(Fp8, 4) == Ok([AtomicOp(CasAdd(PackedAtomics.Fp8x4), 0, 0, 4)])
  {
  }

  // ---------------------------------------------------------------- effect on memory

  /**
   * The effect of one atomic operation on the destination elements, sequentially: each element
   * it covers becomes f(old element, contribution) — f is atomicAdd's or atomicMax's element
   * operation, and for a CAS loop the lane-wise add (PackedAtomics.CombineLanes).
   */
  function ApplyOp(op: AtomicOp, dst: seq<int>, x: seq<int>, f: (int, int) -> int): (r: seq<int>)
    ensures |r| == |dst|
  {
    seq(|dst|, i requires 0 <= i < |dst| =>
      if op.firstLane <= i < op.firstLane + op.lanes && i < |x| then f(dst[i], x[i]) else dst[i])
  }

  /** The effect of a sequence of operations, in order. */
  function Execute(ops: seq<AtomicOp>, dst: seq<int>, x: seq<int>, f: (int, int) -> int): (r: seq<int>)
    ensures |r| == |dst|
  {
    if |ops| == 0 then dst else Execute(ops[1..], ApplyOp(ops[0], dst, x, f), x, f)
  }

  /** The elements a sequence of operations covers, with no overlap between them. */
  predicate Chained(ops: seq<AtomicOp>, lo: int, hi: int) {
    if |ops| == 0 then lo == hi
    else ops[0].firstLane == lo && Chained(ops[1..], lo + ops[0].lanes, hi)
  }

  /** Operations that chain from lo to hi update each element in [lo, hi) once and leave the rest. */
  lemma {:induction false} ExecuteChained(ops: seq<AtomicOp>, lo: nat, hi: int, dst: seq<int>, x: seq<int>, f: (int, int) -> int)
    requires Chained(ops, lo, hi) && hi <= |x|
    ensures lo <= hi
    ensures forall i :: 0 <= i < |dst| ==>
      Execute(ops, dst, x, f)[i] == if lo <= i < hi then f(dst[i], x[i]) else dst[i]
  {
    if |ops| > 0 {
      var mid := lo + ops[0].lanes;
      var dst' := ApplyOp(ops[0], dst, x, f);
      ExecuteChained(ops[1..], mid, hi, dst', x, f);
      forall i | 0 <= i < |dst|
        ensures Execute(ops, dst, x, f)[i] == if lo <= i < hi then f(dst[i], x[i]) else dst[i]
      {
        assert dst'[i] == if lo <= i < mid then f(dst[i], x[i]) else dst[i];
      }
    }
  }

  /** Tiling operations chain from 0 to n. */
  lemma {:induction false} TilesChain(t: ElemType, n: int, ops: seq<AtomicOp>, k: nat)
    requires Tiles(t, n, ops) && k < |ops|
    ensures Chained(ops[k..], ops[k].firstLane, n)
    decreases |ops| - k
  {
    if k + 1 < |ops| {
      TilesChain(t, n, ops, k + 1);
      assert ops[k..][1..] == ops[k + 1..];
    } else {
      assert ops[k..][1..] == [];
    }
  }

  /**
   * A built atomic_add_g or atomic_max_g changes each of the N destination elements exactly once,
   * to f(old element, its contribution), and no element beyond them.
   */
  lemma PlanUpdatesEachElementOnce(ops: seq<AtomicOp>, t: ElemType, n: int, dst: seq<int>, x: seq<int>, f: (int, int) -> int)
    requires Tiles(t, n, ops) && n <= |x|
    ensures forall i :: 0 <= i < |dst| ==>
      Execute(ops, dst, x, f)[i] == if i < n then f(dst[i], x[i]) else dst[i]
  {
    TilesChain(t, n, ops, 0);
    assert ops[0..] == ops;
    ExecuteChained(ops, 0, n, dst, x, f);
  }

  /**
   * atomic_add_g<T, N>(p_dst, x) on the destination elements mem[dst ..]: when it builds, each
   * operation of its plan is applied in program order, element i for i < N becomes
   * f(old element, x[i]) and nothing else changes; when it does not build nothing happens.
   */
  method AtomicAddG(mem: array<int>, dst: nat, t: ElemType, x: seq<int>, f: (int, int) -> int)
    returns (built: Result<(), BuildError>)
    requires dst + |x| <= mem.Length
    modifies mem
    ensures built.Err? <==> AddPlan(t, |x|).Err?
    ensures built.Err? ==> built.error == AddPlan(t, |x|).error && mem[..] == old(mem[..])
    ensures built.Ok? ==> forall i :: 0 <= i < mem.Length ==>
      mem[i] == if dst <= i < dst + |x| then f(old(mem[i]), x[i - dst]) else old(mem[i])
  {
    var plan := AddPlan(t, |x|);
    if plan.Err? {
      return Err(plan.error);
    }
    AddPlanTiles(t, |x|);
    ApplyPlan(mem, dst, t, plan.value, x, f);
    built := Ok(());
  }

  /**
   * atomic_max_g<T, N>(p_dst, x): when it builds, element i for i < N becomes
   * f(old element, x[i]) — f is atomicMax's element operation — and nothing else changes.
   */
  method AtomicMaxG(mem: array<int>, dst: nat, t: ElemType, x: seq<int>, f: (int, int) -> int)
    returns (built: Result<(), BuildError>)
    requires dst + |x| <= mem.Length
    modifies mem
    ensures built.Err? <==> !MaxSupported(t, |x|)
    ensures built.Err? ==> built.error == NotImplemented && mem[..] == old(mem[..])
    ensures built.Ok? ==> forall i :: 0 <= i < mem.Length ==>
      mem[i] == if dst <= i < dst + |x| then f(old(mem[i]), x[i - dst]) else old(mem[i])
  {
    var plan := MaxPlan(t, |x|);
    if plan.Err? {
      return Err(plan.error);
    }
    MaxPlanOutcome(t, |x|);
    ApplyPlan(mem, dst, t, plan.value, x, f);
    built := Ok(());
  }

  /** The one or two operations of a plan that tiles the N elements, in program order. */
  method ApplyPlan(mem: array<int>, dst: nat, t: ElemType, ops: seq<AtomicOp>, x: seq<int>, f: (int, int) -> int)
    requires dst + |x| <= mem.Length
    requires Tiles(t, |x|, ops) && |ops| <= 2
    modifies mem
    ensures forall i :: 0 <= i < mem.Length ==>
      mem[i] == if dst <= i < dst + |x| then f(old(mem[i]), x[i - dst]) else old(mem[i])
  {
    ghost var before := mem[dst..dst + |x|];
    ApplyAtomic(mem, dst, ops[0], x, f);
    ExecuteSnoc([], ops[0], before, x, f);
    assert [] + [ops[0]] == [ops[0]];
    if |ops| == 2 {
      ApplyAtomic(mem, dst, ops[1], x, f);
      ExecuteSnoc([ops[0]], ops[1], before, x, f);
      assert ops == [ops[0]] + [ops[1]];
    } else {
      assert ops == [ops[0]];
    }
    assert mem[dst..dst + |x|] == Execute(ops, before, x, f);
    PlanUpdatesEachElementOnce(ops, t, |x|, before, x, f);
    forall i | dst <= i < dst + |x|
      ensures mem[i] == f(old(mem[i]), x[i - dst])
    {
      assert mem[i] == mem[dst..dst + |x|][i - dst];
    }
  }

  /** One atomic operation on mem[dst ..]: each element it covers is combined with its contribution. */
  method ApplyAtomic(mem: array<int>, dst: nat, op: AtomicOp, x: seq<int>, f: (int, int) -> int)
    requires dst + |x| <= mem.Length
    modifies mem
    ensures mem[dst..dst + |x|] == ApplyOp(op, old(mem[dst..dst + |x|]), x, f)
    ensures forall i :: 0 <= i < mem.Length && !(dst <= i < dst + |x|) ==> mem[i] == old(mem[i])
  {
    forall e | dst + op.firstLane <= e < dst + op.firstLane + op.lanes && e < dst + |x| {
      mem[e] := f(mem[e], x[e - dst]);
    }
  }

  /** Executing one more operation after a prefix. */
  lemma {:induction false} ExecuteSnoc(ops: seq<AtomicOp>, op: AtomicOp, dst: seq<int>, x: seq<int>, f: (int, int) -> int)
    ensures Execute(ops + [op], dst, x, f) == ApplyOp(op, Execute(ops, dst, x, f), x, f)
  {
    if |ops| == 0 {
      assert ops + [op] == [op];
      assert [op][1..] == [];
    } else {
      assert (ops + [op])[1..] == ops[1..] + [op];
      ExecuteSnoc(ops[1..], op, ApplyOp(ops[0], dst, x, f), x, f);
    }
  }
}
