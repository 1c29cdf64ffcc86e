/**
 * The host side of the universal GEMM example (gemm_calc): the split-K arithmetic that sizes each
 * batch's share of K, and the dispatch of the runtime pair (has_hot_loop, tail_num) onto one
 * compiled pipeline specialization, which is launched, skipped, or rejected with an error.
 */
module UniversalGemm {
  import Arith
  import opened Outcomes

  // ---------------------------------------------------------------- split-K arithmetic

  /** The two block-tile configurations the example is built with; they differ in K_Tile. */
  datatype PipelineConfig = MemoryFriendly | ComputeFriendly

  function KTile(c: PipelineConfig): (k: nat)
    ensures k > 0
  {
    match c
    case MemoryFriendly => 64
    case ComputeFriendly => 32
  }

  function Abs(x: int): nat { if x < 0 then -x else x }

  /** C++ integer division, which truncates toward zero (Dafny's / is Euclidean). */
  function TruncDiv(a: int, b: int): int
    requires b != 0
  {
    var m := Abs(a) / Abs(b);
    if (a < 0) != (b < 0) then -m else m
  }

  /** The quotient times the divisor is |a| rounded toward zero to a multiple of |b|, with the sign of a. */
  lemma TruncProduct(a: int, b: int)
    requires b != 0
    ensures var mb := (Abs(a) / Abs(b)) * Abs(b);
      TruncDiv(a, b) * b == if a >= 0 then mb else -mb
  {
    var m := Abs(a) / Abs(b);
    if b < 0 {
      assert m * b == -(m * Abs(b));
      assert (-m) * b == m * Abs(b);
    } else {
      assert (-m) * b == -(m * b);
    }
  }

  /**
   * TruncDiv is C++ division: a = q * b + r with |r| < |b| and the remainder r zero or of the
   * sign of a; on a non-negative dividend and positive divisor it agrees with Euclidean division.
   */
  lemma {:induction false} TruncDivIsTruncation(a: int, b: int)
    requires b != 0
    ensures var q := TruncDiv(a, b); var r := a - q * b;
      Abs(r) < Abs(b) && (r == 0 || (r < 0) == (a < 0))
    ensures a >= 0 && b > 0 ==> TruncDiv(a, b) == a / b
  {
    var m := Abs(a) / Abs(b);
    var rem := Abs(a) % Abs(b);
    assert Abs(a) == m * Abs(b) + rem;
    TruncProduct(a, b);
  }

  /** k_grain = k_batch * K_Tile; K_split = (K + k_grain - 1) / k_grain * K_Tile. */
  function KSplit(k: int, kBatch: int, kTile: nat): int
    requires kBatch != 0 && kTile > 0
  {
    TruncDiv(k + kBatch * kTile - 1, kBatch * kTile) * kTile
  }

  /** For K >= 0 and positive k_batch, K_split is K_Tile times the ceiling of K / k_grain. */
  lemma KSplitIsCeil(k: int, kBatch: int, kTile: nat)
    requires k >= 0 && kBatch > 0 && kTile > 0
    ensures kBatch * kTile > 0
    ensures KSplit(k, kBatch, kTile) == (k + kBatch * kTile - 1) / (kBatch * kTile) * kTile
  {
    Arith.MulAtLeast(kBatch, kTile);
    TruncDivIsTruncation(k + kBatch * kTile - 1, kBatch * kTile);
  }

  /**
   * For K >= 0 and positive k_batch and K_Tile, K_split is a non-negative multiple of K_Tile whose
   * k_batch copies cover K with an excess of less than one k_grain, and a non-empty K gets at
   * least one K tile per batch.
   */
  lemma {:induction false} KSplitBounds(k: int, kBatch: int, kTile: nat)
    requires k >= 0 && kBatch > 0 && kTile > 0
    ensures KSplit(k, kBatch, kTile) >= 0 && KSplit(k, kBatch, kTile) % kTile == 0
    ensures kBatch * KSplit(k, kBatch, kTile) >= k
    ensures kBatch * KSplit(k, kBatch, kTile) - k < kBatch * kTile
    ensures k >= 1 ==> KSplit(k, kBatch, kTile) >= kTile
  {
    var g := kBatch * kTile;
    KSplitIsCeil(k, kBatch, kTile);
    var q := (k + g - 1) / g;
    Arith.CeilDivBounds(k, g);
    assert kBatch * (q * kTile) == q * g;
    Arith.DivModUnique(q * kTile, q, 0, kTile);
    Arith.MulAtLeast(q, kTile);
  }

  /** K_split is the least multiple of K_Tile whose k_batch copies cover K. */
  lemma {:induction false} KSplitLeast(k: int, kBatch: int, kTile: nat, r: int)
    requires k >= 0 && kBatch > 0 && kTile > 0
    requires kBatch * (r * kTile) >= k
    ensures r * kTile >= KSplit(k, kBatch, kTile)
  {
    var g := kBatch * kTile;
    KSplitIsCeil(k, kBatch, kTile);
    var q := (k + g - 1) / g;
    Arith.CeilDivBounds(k, g);
    assert kBatch * (r * kTile) == r * g;
    assert (q - 1) * g == q * g - g;
    Arith.MulOrder(r, q - 1, g);
    Arith.MulOrder(q, r, kTile);
  }

  // ---------------------------------------------------------------- specializations and dispatch

  /** ck_tile::TailNumber: how the pipeline's last iterations are unrolled. */
  datatype TailNumber = Odd | Even | One | Two | Three | Four | Five | Six | Seven | Empty | Full

  /** One compiled instance of the pipeline: the (has_hot_loop, tail_number) template arguments. */
  datatype Specialization = Specialization(hotLoop: bool, tail: TailNumber)

  /** Why gemm_calc throws: IsSupportedArgument refused, or the tail has no specialization without a hot loop. */
  datatype GemmError = ArgumentsNotSupported | TailNotSupported(tail: TailNumber, prefetchStages: int)

  /**
   * The loop-shape queries of the base pipeline, which are defined outside this model:
   * GetLoopNum, BlockHasHotloop, GetBlockLoopTailNum and the PrefetchStages constant.
   */
  datatype LoopPolicy = LoopPolicy(
    loopNum: int -> int, hasHotLoop: int -> bool, tailNum: int -> TailNumber, prefetchStages: int)

  /**
   * With a hot loop, the tails that have a compiled branch: One and Full always, Two to Seven
   * only when PrefetchStages exceeds 2 to 7 respectively.
   */
  predicate HotTailCompiled(tail: TailNumber, prefetchStages: int) {
    match tail
    case One => true
    case Full => true
    case Two => prefetchStages > 2
    case Three => prefetchStages > 3
    case Four => prefetchStages > 4
    case Five => prefetchStages > 5
    case Six => prefetchStages > 6
    case Seven => prefetchStages > 7
    case _ => false
  }

  /**
   * The specialization the dispatch chain selects for a runtime pair: Some instance to run, None
   * when no branch matches (nothing runs and no error is raised), or the no-hot-loop error.
   */
  function Selection(hasHotLoop: bool, tail: TailNumber, prefetchStages: int): Result<Option<Specialization>, GemmError> {
    if hasHotLoop then
      if HotTailCompiled(tail, prefetchStages) then Ok(Some(Specialization(true, tail))) else Ok(None)
    else if tail == Full then Ok(Some(Specialization(false, Full)))
    else Err(TailNotSupported(tail, prefetchStages))
  }

  /**
   * Properties of the selection: a selected instance is always the runtime pair itself; with a
   * hot loop there is never an error, One and Full are always selected and Two to Seven exactly
   * when PrefetchStages exceeds their number; without a hot loop Full selects (false, Full) and
   * every other tail is an error naming the tail and PrefetchStages.
   */
  lemma SelectionCases(hasHotLoop: bool, tail: TailNumber, prefetchStages: int)
    ensures Selection(hasHotLoop, tail, prefetchStages).Ok? && Selection(hasHotLoop, tail, prefetchStages).value.Some? ==>
      Selection(hasHotLoop, tail, prefetchStages).value.value == Specialization(hasHotLoop, tail)
    ensures hasHotLoop ==> Selection(hasHotLoop, tail, prefetchStages).Ok?
    ensures hasHotLoop && (tail == One || tail == Full) ==>
      Selection(hasHotLoop, tail, prefetchStages) == Ok(Some(Specialization(true, tail)))
    ensures hasHotLoop && tail == Two ==> (Selection(hasHotLoop, tail, prefetchStages).value.Some? <==> prefetchStages > 2)
    ensures hasHotLoop && tail == Three ==> (Selection(hasHotLoop, tail, prefetchStages).value.Some? <==> prefetchStages > 3)
    ensures hasHotLoop && tail == Four ==> (Selection(hasHotLoop, tail, prefetchStages).value.Some? <==> prefetchStages > 4)
    ensures hasHotLoop && tail == Five ==> (Selection(hasHotLoop, tail, prefetchStages).value.Some? <==> prefetchStages > 5)
    ensures hasHotLoop && tail == Six ==> (Selection(hasHotLoop, tail, prefetchStages).value.Some? <==> prefetchStages > 6)
    ensures hasHotLoop && tail == Seven ==> (Selection(hasHotLoop, tail, prefetchStages).value.Some? <==> prefetchStages > 7)
    ensures hasHotLoop && (tail == Odd || tail == Even || tail == Empty) ==> Selection(hasHotLoop, tail, prefetchStages) == Ok(None)
    ensures !hasHotLoop && tail == Full ==> Selection(hasHotLoop, tail, prefetchStages) == Ok(Some(Specialization(false, Full)))
    ensures !hasHotLoop && tail != Full ==> Selection(hasHotLoop, tail, prefetchStages) == Err(TailNotSupported(tail, prefetchStages))
  {
  }

  /**
   * The Run lambda for one specialization: IsSupportedArgument is checked first and a refusal
   * throws before launch_kernel is reached; otherwise the kernel is launched once and ave_time is
   * the time launch_kernel reports.
   */
  method Run(spec: Specialization, supported: Specialization -> bool, launch: Specialization -> real)
    returns (result: Result<real, GemmError>, launched: seq<Specialization>)
    ensures supported(spec) ==> result == Ok(launch(spec)) && launched == [spec]
    ensures !supported(spec) ==> result == Err(ArgumentsNotSupported) && launched == []
  {
    if !supported(spec) {
      return Err(ArgumentsNotSupported), [];
    }
    var aveTime := launch(spec);
    launched := [spec];
    result := Ok(aveTime);
  }

  /**
   * The dispatch chain of gemm_calc. ave_time starts at 0; the branch matching the runtime pair
   * (if any) runs its specialization. The outcome follows Selection: a selected instance is run
   * (and launched when its arguments are supported), no selection returns 0 without launching,
   * and an error launches nothing. launched logs every launch in order, so at most one kernel is
   * launched per call.
   */
  method Dispatch(hasHotLoop: bool, tail: TailNumber, prefetchStages: int,
                  supported: Specialization -> bool, launch: Specialization -> real)
    returns (result: Result<real, GemmError>, launched: seq<Specialization>)
    ensures |launched| <= 1
    ensures Selection(hasHotLoop, tail, prefetchStages) == Ok(None) ==> result == Ok(0.0) && launched == []
    ensures Selection(hasHotLoop, tail, prefetchStages).Err? ==>
      result == Err(Selection(hasHotLoop, tail, prefetchStages).error) && launched == []
    ensures Selection(hasHotLoop, tail, prefetchStages).Ok? && Selection(hasHotLoop, tail, prefetchStages).value.Some? ==>
      var spec := Selection(hasHotLoop, tail, prefetchStages).value.value;
      && (supported(spec) ==> result == Ok(launch(spec)) && launched == [spec])
      && (!supported(spec) ==> result == Err(ArgumentsNotSupported) && launched == [])
  {
    result, launched := Ok(0.0), [];
    if hasHotLoop {
      if tail == One {
        var r, l := Run(Specialization(true, One), supported, launch);
        result, launched := r, launched + l;
      } else if tail == Full {
        var r, l := Run(Specialization(true, Full), supported, launch);
        result, launched := r, launched + l;
      }
      if prefetchStages > 2 {
        if tail == Two {
          var r, l := Run(Specialization(true, Two), supported, launch);
          result, launched := r, launched + l;
        }
      }
      if prefetchStages > 3 {
        if tail == Three {
          var r, l := Run(Specialization(true, Three), supported, launch);
          result, launched := r, launched + l;
        }
      }
      if prefetchStages > 4 {
        if tail == Four {
          var r, l := Run(Specialization(true, Four), supported, launch);
          result, launched := r, launched + l;
        }
      }
      if prefetchStages > 5 {
        if tail == Five {
          var r, l := Run(Specialization(true, Five), supported, launch);
          result, launched := r, launched + l;
        }
      }
      if prefetchStages > 6 {
        if tail == Six {
          var r, l := Run(Specialization(true, Six), supported, launch);
          result, launched := r, launched + l;
        }
      }
      if prefetchStages > 7 {
        if tail == Seven {
          var r, l := Run(Specialization(true, Seven), supported, launch);
          result, launched := r, launched + l;
        }
      }
    } else {
      if tail == Full {
        var r, l := Run(Specialization(false, Full), supported, launch);
        result, launched := r, launched + l;
      } else {
        result := Err(TailNotSupported(tail, prefetchStages));
      }
    }
  }

  /** The host arguments gemm_calc reads: the K extent and the split-K batch count. */
  datatype GemmArgs = GemmArgs(k: int, kBatch: int)

  /**
   * gemm_calc: K_split from K, k_batch and the configuration's K_Tile, the loop shape from the
   * policy, then the dispatch of the resulting (has_hot_loop, tail_num) pair.
   */
  method GemmCalc(args: GemmArgs, config: PipelineConfig, policy: LoopPolicy,
                  supported: Specialization -> bool, launch: Specialization -> real)
    returns (result: Result<real, GemmError>, launched: seq<Specialization>)
    requires args.kBatch != 0
    ensures var numLoop := policy.loopNum(KSplit(args.k, args.kBatch, KTile(config)));
      var sel := Selection(policy.hasHotLoop(numLoop), policy.tailNum(numLoop), policy.prefetchStages);
      && |launched| <= 1
      && (sel == Ok(None) ==> result == Ok(0.0) && launched == [])
      && (sel.Err? ==> result == Err(sel.error) && launched == [])
      && (sel.Ok? && sel.value.Some? ==>
            && (supported(sel.value.value) ==> result == Ok(launch(sel.value.value)) && launched == [sel.value.value])
            && (!supported(sel.value.value) ==> result == Err(ArgumentsNotSupported) && launched == []))
  {
    var kTile := KTile(config);
    var kGrain := args.kBatch * kTile;
    var kSplit := TruncDiv(args.k + kGrain - 1, kGrain) * kTile;
    var numLoop := policy.loopNum(kSplit);
    var hasHotLoop := policy.hasHotLoop(numLoop);
    var tailNum := policy.tailNum(numLoop);
    result, launched := Dispatch(hasHotLoop, tailNum, policy.prefetchStages, supported, launch);
  }
}
