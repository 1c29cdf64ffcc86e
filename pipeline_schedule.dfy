/**
 * Properties of the v1 pipeline's event schedule (GemmPipeline.Schedule, which GemmPipeline.Run
 * is proved to follow): how many block GEMMs, reads, window moves, LDS writes and shuffles one
 * invocation performs and with which arguments, the order of reads, GEMMs and LDS writes, and
 * the absence of unsynchronised LDS accesses given the block_sync_lds barriers.
 */
module ScheduleProperties {
  import opened TileMath
  import opened TileWindows
  import opened GemmPipeline

  // ---------------------------------------------------------------- projections of a trace

  /** A class of events of interest. Stores(op) keeps both the shuffles and the LDS writes of op. */
  datatype Kind =
    | Reads(op: Operand)
    | Moves(op: Operand)
    | Stores(op: Operand)
    | Gemms
    | Barriers
    | LdsAccesses
    | ReadsAndGemms(op: Operand)

  predicate Selects(k: Kind, e: Event) {
    match k
    case Reads(op) => e.GlobalRead? && e.op == op
    case Moves(op) => e.MoveWindow? && e.op == op
    case Stores(op) => (e.Shuffle? || e.LdsWrite?) && e.op == op
    case Gemms => e.BlockGemm?
    case Barriers => e.Barrier?
    case LdsAccesses => e.Barrier? || e.LdsWrite? || e.BlockGemm?
    case ReadsAndGemms(op) => (e.GlobalRead? && e.op == op) || e.BlockGemm?
  }

  function Keep(k: Kind, e: Event): seq<Event> {
    if Selects(k, e) then [e] else []
  }

  /** The events of t of kind k, in trace order. */
  function Project(t: seq<Event>, k: Kind): seq<Event> {
    if |t| == 0 then [] else Keep(k, t[0]) + Project(t[1..], k)
  }

  /** A projection keeps exactly the events of its kind, and is no longer than the trace. */
  lemma {:induction false} ProjectMembers(t: seq<Event>, k: Kind)
    ensures |Project(t, k)| <= |t|
    ensures forall e :: e in Project(t, k) <==> e in t && Selects(k, e)
  {
    if |t| > 0 {
      ProjectMembers(t[1..], k);
      assert t == [t[0]] + t[1..];
    }
  }

  lemma {:induction false} ProjectConcat(t1: seq<Event>, t2: seq<Event>, k: Kind)
    ensures Project(t1 + t2, k) == Project(t1, k) + Project(t2, k)
  {
    if |t1| > 0 {
      assert (t1 + t2)[0] == t1[0];
      assert (t1 + t2)[1..] == t1[1..] + t2;
      ProjectConcat(t1[1..], t2, k);
      assert Keep(k, t1[0]) + (Project(t1[1..], k) + Project(t2, k))
          == (Keep(k, t1[0]) + Project(t1[1..], k)) + Project(t2, k);
    } else {
      assert t1 + t2 == t2;
    }
  }

  lemma ProjectSnocAt(t: seq<Event>, e: Event, k: Kind)
    ensures Project(t + [e], k) == Project(t, k) + Keep(k, e)
  {
    ProjectConcat(t, [e], k);
    assert [e][1..] == [];
  }

  lemma ProjectOptAt(t: seq<Event>, c: bool, e: Event, k: Kind)
    ensures Project(t + (if c then [e] else []), k) == Project(t, k) + (if c then Keep(k, e) else [])
  {
    if c {
      ProjectSnocAt(t, e, k);
    } else {
      assert t + [] == t;
      assert Project(t, k) + [] == Project(t, k);
    }
  }

  lemma ProjectOne(e: Event, k: Kind)
    ensures Project([e], k) == Keep(k, e)
  {
    assert [e][1..] == [];
  }

  function Origin(op: Operand, ao: Coord, bo: Coord): Coord {
    if op == OperandA then ao else bo
  }

  /** Whether op's tile is shuffled before its LDS write: a column-major A, a row-major B. */
  predicate Shuffled(p: Problem, op: Operand) {
    if op == OperandA then p.aLayout == ColumnMajor else p.bLayout == RowMajor
  }

  // ---------------------------------------------------------------- per-block projections

  /** The projection of the prologue, event by event. */
  lemma PrologueProject(p: Problem, ao: Coord, bo: Coord, k: Kind)
    ensures Project(Prologue(p, ao, bo), k)
         == Keep(k, GlobalRead(OperandA, 0, ao)) + Keep(k, GlobalRead(OperandB, 0, bo))
          + Keep(k, MoveWindow(OperandA, KOrigin(p, ao, 1))) + Keep(k, MoveWindow(OperandB, KOrigin(p, bo, 1)))
          + Keep(k, ClearAcc)
          + (if p.aLayout == ColumnMajor then Keep(k, Shuffle(OperandA)) else []) + Keep(k, LdsWrite(OperandA, 0))
          + (if p.bLayout == RowMajor then Keep(k, Shuffle(OperandB)) else []) + Keep(k, LdsWrite(OperandB, 0))
  {
    var t1 := [GlobalRead(OperandA, 0, ao)];
    var t2 := t1 + [GlobalRead(OperandB, 0, bo)];
    var t3 := t2 + [MoveWindow(OperandA, KOrigin(p, ao, 1))];
    var t4 := t3 + [MoveWindow(OperandB, KOrigin(p, bo, 1))];
    var t5 := t4 + [ClearAcc];
    var t6 := t5 + (if p.aLayout == ColumnMajor then [Shuffle(OperandA)] else []);
    var t7 := t6 + [LdsWrite(OperandA, 0)];
    var t8 := t7 + (if p.bLayout == RowMajor then [Shuffle(OperandB)] else []);
    ProjectOne(GlobalRead(OperandA, 0, ao), k);
    ProjectSnocAt(t1, GlobalRead(OperandB, 0, bo), k);
    ProjectSnocAt(t2, MoveWindow(OperandA, KOrigin(p, ao, 1)), k);
    ProjectSnocAt(t3, MoveWindow(OperandB, KOrigin(p, bo, 1)), k);
    ProjectSnocAt(t4, ClearAcc, k);
    ProjectOptAt(t5, p.aLayout == ColumnMajor, Shuffle(OperandA), k);
    ProjectSnocAt(t6, LdsWrite(OperandA, 0), k);
    ProjectOptAt(t7, p.bLayout == RowMajor, Shuffle(OperandB), k);
    ProjectSnocAt(t8, LdsWrite(OperandB, 0), k);
  }

  /** The projection of loop iteration i, event by event. */
  lemma IterationProject(p: Problem, ao: Coord, bo: Coord, i: nat, k: Kind)
    requires i >= 1
    ensures Project(Iteration(p, ao, bo, i), k)
         == Keep(k, GlobalRead(OperandA, i, KOrigin(p, ao, i))) + Keep(k, GlobalRead(OperandB, i, KOrigin(p, bo, i)))
          + Keep(k, Barrier) + Keep(k, BlockGemm(i - 1)) + Keep(k, Barrier)
          + Keep(k, MoveWindow(OperandA, KOrigin(p, ao, i + 1))) + Keep(k, MoveWindow(OperandB, KOrigin(p, bo, i + 1)))
          + Keep(k, LdsWrite(OperandA, i))
          + (if p.bLayout == RowMajor then Keep(k, Shuffle(OperandB)) else []) + Keep(k, LdsWrite(OperandB, i))
  {
    var t1 := [GlobalRead(OperandA, i, KOrigin(p, ao, i))];
    var t2 := t1 + [GlobalRead(OperandB, i, KOrigin(p, bo, i))];
    var t3 := t2 + [Barrier];
    var t4 := t3 + [BlockGemm(i - 1)];
    var t5 := t4 + [Barrier];
    var t6 := t5 + [MoveWindow(OperandA, KOrigin(p, ao, i + 1))];
    var t7 := t6 + [MoveWindow(OperandB, KOrigin(p, bo, i + 1))];
    var t8 := t7 + [LdsWrite(OperandA, i)];
    ProjectOne(GlobalRead(OperandA, i, KOrigin(p, ao, i)), k);
    ProjectSnocAt(t1, GlobalRead(OperandB, i, KOrigin(p, bo, i)), k);
    ProjectSnocAt(t2, Barrier, k);
    ProjectSnocAt(t3, BlockGemm(i - 1), k);
    ProjectSnocAt(t4, Barrier, k);
    ProjectSnocAt(t5, MoveWindow(OperandA, KOrigin(p, ao, i + 1)), k);
    ProjectSnocAt(t6, MoveWindow(OperandB, KOrigin(p, bo, i + 1)), k);
    ProjectSnocAt(t7, LdsWrite(OperandA, i), k);
    var t9 := t8 + (if p.bLayout == RowMajor then [Shuffle(OperandB)] else []);
    ProjectOptAt(t8, p.bLayout == RowMajor, Shuffle(OperandB), k);
    ProjectSnocAt(t9, LdsWrite(OperandB, i), k);
  }
  lemma PrologueGemms(p: Problem, ao: Coord, bo: Coord)
    ensures Project(Prologue(p, ao, bo), Gemms) == Project(Prologue(p, ao, bo), Barriers) == []
  {
    PrologueProject(p, ao, bo, Gemms);
    PrologueProject(p, ao, bo, Barriers);
  }

  lemma PrologueReads(p: Problem, ao: Coord, bo: Coord, op: Operand)
    ensures Project(Prologue(p, ao, bo), Reads(op)) == [GlobalRead(op, 0, Origin(op, ao, bo))]
  {
    PrologueProject(p, ao, bo, Reads(op));
  }

  /** Consecutive K-block origins are (0, kKPerBlock) apart. */
  lemma KOriginSteps(p: Problem, o: Coord, n: nat)
    ensures forall j :: 1 <= j < n ==> KOrigin(p, o, j + 1) == Translate(KOrigin(p, o, j), Coord(0, p.kKPerBlock))
  {
    forall j | 1 <= j < n
      ensures KOrigin(p, o, j + 1) == Translate(KOrigin(p, o, j), Coord(0, p.kKPerBlock))
    {
      assert (j + 1) * p.kKPerBlock == j * p.kKPerBlock + p.kKPerBlock;
    }
  }

  lemma PrologueMoves(p: Problem, ao: Coord, bo: Coord, op: Operand)
    ensures Project(Prologue(p, ao, bo), Moves(op)) == [MoveWindow(op, KOrigin(p, Origin(op, ao, bo), 1))]
  {
    PrologueProject(p, ao, bo, Moves(op));
  }

  lemma PrologueStores(p: Problem, ao: Coord, bo: Coord, op: Operand)
    ensures Project(Prologue(p, ao, bo), Stores(op)) == (if Shuffled(p, op) then [Shuffle(op)] else []) + [LdsWrite(op, 0)]
  {
    PrologueProject(p, ao, bo, Stores(op));
  }

  lemma PrologueLds(p: Problem, ao: Coord, bo: Coord)
    ensures Project(Prologue(p, ao, bo), LdsAccesses) == [LdsWrite(OperandA, 0), LdsWrite(OperandB, 0)]
  {
    PrologueProject(p, ao, bo, LdsAccesses);
  }

  lemma PrologueReadsAndGemms(p: Problem, ao: Coord, bo: Coord, op: Operand)
    ensures Project(Prologue(p, ao, bo), ReadsAndGemms(op)) == [GlobalRead(op, 0, Origin(op, ao, bo))]
  {
    PrologueProject(p, ao, bo, ReadsAndGemms(op));
  }

  lemma IterationGemms(p: Problem, ao: Coord, bo: Coord, i: nat)
    requires i >= 1
    ensures Project(Iteration(p, ao, bo, i), Gemms) == [BlockGemm(i - 1)]
    ensures Project(Iteration(p, ao, bo, i), Barriers) == [Barrier, Barrier]
  {
    IterationProject(p, ao, bo, i, Gemms);
    IterationProject(p, ao, bo, i, Barriers);
  }

  lemma IterationReads(p: Problem, ao: Coord, bo: Coord, i: nat, op: Operand)
    requires i >= 1
    ensures Project(Iteration(p, ao, bo, i), Reads(op)) == [GlobalRead(op, i, KOrigin(p, Origin(op, ao, bo), i))]
  {
    IterationProject(p, ao, bo, i, Reads(op));
  }

  lemma IterationMoves(p: Problem, ao: Coord, bo: Coord, i: nat, op: Operand)
    requires i >= 1
    ensures Project(Iteration(p, ao, bo, i), Moves(op)) == [MoveWindow(op, KOrigin(p, Origin(op, ao, bo), i + 1))]
  {
    IterationProject(p, ao, bo, i, Moves(op));
  }

  lemma IterationStores(p: Problem, ao: Coord, bo: Coord, i: nat, op: Operand)
    requires i >= 1
    ensures Project(Iteration(p, ao, bo, i), Stores(op))
         == (if op == OperandB && p.bLayout == RowMajor then [Shuffle(op)] else []) + [LdsWrite(op, i)]
  {
    IterationProject(p, ao, bo, i, Stores(op));
  }

  lemma IterationLds(p: Problem, ao: Coord, bo: Coord, i: nat)
    requires i >= 1
    ensures Project(Iteration(p, ao, bo, i), LdsAccesses)
         == [Barrier, BlockGemm(i - 1), Barrier, LdsWrite(OperandA, i), LdsWrite(OperandB, i)]
  {
    IterationProject(p, ao, bo, i, LdsAccesses);
  }

  lemma IterationReadsAndGemms(p: Problem, ao: Coord, bo: Coord, i: nat, op: Operand)
    requires i >= 1
    ensures Project(Iteration(p, ao, bo, i), ReadsAndGemms(op))
         == [GlobalRead(op, i, KOrigin(p, Origin(op, ao, bo), i)), BlockGemm(i - 1)]
  {
    IterationProject(p, ao, bo, i, ReadsAndGemms(op));
  }

  /** The projection of a whole schedule, block by block. */
  lemma ScheduleProject(p: Problem, ao: Coord, bo: Coord, numLoop: int, k: Kind)
    ensures Project(Schedule(p, ao, bo, numLoop), k)
         == Project(Prologue(p, ao, bo), k) + Project(Iterations(p, ao, bo, Trips(numLoop) - 1), k)
          + Keep(k, Barrier) + Keep(k, BlockGemm(Trips(numLoop) - 1))
  {
    var n := Trips(numLoop);
    var pre := Prologue(p, ao, bo) + Iterations(p, ao, bo, n - 1);
    ProjectConcat(Prologue(p, ao, bo), Iterations(p, ao, bo, n - 1), k);
    assert Schedule(p, ao, bo, numLoop) == pre + [Barrier] + [BlockGemm(n - 1)];
    ProjectConcat(pre, [Barrier], k);
    ProjectConcat(pre + [Barrier], [BlockGemm(n - 1)], k);
    ProjectOne(Barrier, k);
    ProjectOne(BlockGemm(n - 1), k);
  }

  // ---------------------------------------------------------------- counts and arguments

  lemma {:induction false} IterationsGemms(p: Problem, ao: Coord, bo: Coord, k: nat)
    ensures Project(Iterations(p, ao, bo, k), Gemms) == seq(k, j => BlockGemm(j))
  {
    if k > 0 {
      IterationsGemms(p, ao, bo, k - 1);
      ProjectConcat(Iterations(p, ao, bo, k - 1), Iteration(p, ao, bo, k), Gemms);
      IterationGemms(p, ao, bo, k);
      assert seq(k - 1, j => BlockGemm(j)) + [BlockGemm(k - 1)] == seq(k, j => BlockGemm(j));
    }
  }

  /**
   * block_gemm runs once per K block, on blocks 0, 1, ..., in order: num_loop times when
   * num_loop >= 1 (num_loop - 1 in the loop and one in the tail), once when num_loop <= 0.
   */
  lemma ScheduleGemms(p: Problem, ao: Coord, bo: Coord, numLoop: int)
    ensures Project(Schedule(p, ao, bo, numLoop), Gemms) == seq(Trips(numLoop), j => BlockGemm(j))
    ensures numLoop >= 1 ==> |Project(Schedule(p, ao, bo, numLoop), Gemms)| == numLoop
    ensures numLoop <= 0 ==> Project(Schedule(p, ao, bo, numLoop), Gemms) == [BlockGemm(0)]
  {
    var n := Trips(numLoop);
    ScheduleProject(p, ao, bo, numLoop, Gemms);
    PrologueGemms(p, ao, bo);
    IterationsGemms(p, ao, bo, n - 1);
    assert seq(n - 1, j => BlockGemm(j)) + [BlockGemm(n - 1)] == seq(n, j => BlockGemm(j));
  }

  lemma {:induction false} IterationsReads(p: Problem, ao: Coord, bo: Coord, k: nat, op: Operand)
    ensures Project(Iterations(p, ao, bo, k), Reads(op))
         == seq(k, j => GlobalRead(op, j + 1, KOrigin(p, Origin(op, ao, bo), j + 1)))
  {
    if k > 0 {
      IterationsReads(p, ao, bo, k - 1, op);
      ProjectConcat(Iterations(p, ao, bo, k - 1), Iteration(p, ao, bo, k), Reads(op));
      IterationReads(p, ao, bo, k, op);
      assert seq(k - 1, j => GlobalRead(op, j + 1, KOrigin(p, Origin(op, ao, bo), j + 1)))
           + [GlobalRead(op, k, KOrigin(p, Origin(op, ao, bo), k))]
          == seq(k, j => GlobalRead(op, j + 1, KOrigin(p, Origin(op, ao, bo), j + 1)));
    }
  }

  lemma ReadsCons(p: Problem, op: Operand, o: Coord, n: nat)
    requires n >= 1
    ensures [GlobalRead(op, 0, o)] + seq(n - 1, j => GlobalRead(op, j + 1, KOrigin(p, o, j + 1)))
         == seq(n, j => GlobalRead(op, j, KOrigin(p, o, j)))
  {
    assert KOrigin(p, o, 0) == o;
  }

  /**
   * Each operand is read from global memory once per K block, blocks 0, 1, ... in order, block j
   * through the copy window at the caller's origin advanced j * kKPerBlock columns.
   */
  lemma ScheduleReads(p: Problem, ao: Coord, bo: Coord, numLoop: int, op: Operand)
    ensures Project(Schedule(p, ao, bo, numLoop), Reads(op))
         == seq(Trips(numLoop), j => GlobalRead(op, j, KOrigin(p, Origin(op, ao, bo), j)))
  {
    var n := Trips(numLoop);
    var o := Origin(op, ao, bo);
    ScheduleProject(p, ao, bo, numLoop, Reads(op));
    PrologueReads(p, ao, bo, op);
    IterationsReads(p, ao, bo, n - 1, op);
    ReadsCons(p, op, o, n);
  }

  lemma {:induction false} IterationsMoves(p: Problem, ao: Coord, bo: Coord, k: nat, op: Operand)
    ensures Project(Iterations(p, ao, bo, k), Moves(op))
         == seq(k, j => MoveWindow(op, KOrigin(p, Origin(op, ao, bo), j + 2)))
  {
    if k > 0 {
      IterationsMoves(p, ao, bo, k - 1, op);
      ProjectConcat(Iterations(p, ao, bo, k - 1), Iteration(p, ao, bo, k), Moves(op));
      IterationMoves(p, ao, bo, k, op);
      assert seq(k - 1, j => MoveWindow(op, KOrigin(p, Origin(op, ao, bo), j + 2)))
           + [MoveWindow(op, KOrigin(p, Origin(op, ao, bo), k + 1))]
          == seq(k, j => MoveWindow(op, KOrigin(p, Origin(op, ao, bo), j + 2)));
    }
  }

  lemma MovesCons(p: Problem, op: Operand, o: Coord, n: nat)
    requires n >= 1
    ensures [MoveWindow(op, KOrigin(p, o, 1))] + seq(n - 1, j => MoveWindow(op, KOrigin(p, o, j + 2)))
         == seq(n, j => MoveWindow(op, KOrigin(p, o, j + 1)))
  {
  }

  /**
   * Each DRAM copy window is moved once per K block (once in the prologue and once per loop
   * iteration, never in the tail), each time by exactly (0, kKPerBlock).
   */
  lemma ScheduleMoves(p: Problem, ao: Coord, bo: Coord, numLoop: int, op: Operand)
    ensures Project(Schedule(p, ao, bo, numLoop), Moves(op))
         == seq(Trips(numLoop), j => MoveWindow(op, KOrigin(p, Origin(op, ao, bo), j + 1)))
    ensures var r := Project(Schedule(p, ao, bo, numLoop), Moves(op));
      && r[0].origin == Translate(Origin(op, ao, bo), Coord(0, p.kKPerBlock))
      && forall j :: 1 <= j < |r| ==> r[j].origin == Translate(r[j - 1].origin, Coord(0, p.kKPerBlock))
  {
    var n := Trips(numLoop);
    var o := Origin(op, ao, bo);
    ScheduleProject(p, ao, bo, numLoop, Moves(op));
    PrologueMoves(p, ao, bo, op);
    IterationsMoves(p, ao, bo, n - 1, op);
    MovesCons(p, op, o, n);
    KOriginSteps(p, o, n);
  }

  lemma {:induction false} IterationsStoresA(p: Problem, ao: Coord, bo: Coord, k: nat)
    ensures Project(Iterations(p, ao, bo, k), Stores(OperandA)) == seq(k, j => LdsWrite(OperandA, j + 1))
  {
    if k > 0 {
      IterationsStoresA(p, ao, bo, k - 1);
      ProjectConcat(Iterations(p, ao, bo, k - 1), Iteration(p, ao, bo, k), Stores(OperandA));
      IterationStores(p, ao, bo, k, OperandA);
      assert seq(k - 1, j => LdsWrite(OperandA, j + 1)) + [LdsWrite(OperandA, k)]
          == seq(k, j => LdsWrite(OperandA, j + 1));
    }
  }

  /**
   * A is written to LDS once per K block, in order; it is shuffled before the first write when
   * column-major and never again: the loop stores A unshuffled whatever its layout.
   */
  lemma ScheduleStoresA(p: Problem, ao: Coord, bo: Coord, numLoop: int)
    ensures Project(Schedule(p, ao, bo, numLoop), Stores(OperandA))
         == (if p.aLayout == ColumnMajor then [Shuffle(OperandA)] else []) + seq(Trips(numLoop), j => LdsWrite(OperandA, j))
  {
    var n := Trips(numLoop);
    ScheduleProject(p, ao, bo, numLoop, Stores(OperandA));
    PrologueStores(p, ao, bo, OperandA);
    IterationsStoresA(p, ao, bo, n - 1);
    assert [LdsWrite(OperandA, 0)] + seq(n - 1, j => LdsWrite(OperandA, j + 1)) == seq(n, j => LdsWrite(OperandA, j));
  }

  /** Writes of B blocks lo, lo + 1, ..., n of them, each preceded by a shuffle when shuffled. */
  function BStores(shuffled: bool, lo: int, n: nat): seq<Event> {
    if shuffled then seq(2 * n, i => if i % 2 == 0 then Shuffle(OperandB) else LdsWrite(OperandB, lo + i / 2))
    else seq(n, j => LdsWrite(OperandB, lo + j))
  }

  lemma BStoresSnoc(shuffled: bool, lo: int, n: nat)
    ensures BStores(shuffled, lo, n + 1)
         == BStores(shuffled, lo, n) + (if shuffled then [Shuffle(OperandB)] else []) + [LdsWrite(OperandB, lo + n)]
  {
    if shuffled {
      var r := BStores(shuffled, lo, n) + [Shuffle(OperandB)] + [LdsWrite(OperandB, lo + n)];
      forall i | 0 <= i < 2 * n + 2
        ensures r[i] == BStores(shuffled, lo, n + 1)[i]
      {
        if i == 2 * n + 1 {
          assert i / 2 == n;
        }
      }
    } else {
      assert seq(n, j => LdsWrite(OperandB, lo + j)) + [] + [LdsWrite(OperandB, lo + n)]
          == seq(n + 1, j => LdsWrite(OperandB, lo + j));
    }
  }

  lemma BStoresCons(shuffled: bool, n: nat)
    ensures BStores(shuffled, 0, n + 1)
         == (if shuffled then [Shuffle(OperandB)] else []) + [LdsWrite(OperandB, 0)] + BStores(shuffled, 1, n)
  {
    var r := (if shuffled then [Shuffle(OperandB)] else []) + [LdsWrite(OperandB, 0)] + BStores(shuffled, 1, n);
    if shuffled {
      forall i | 0 <= i < 2 * n + 2
        ensures r[i] == BStores(shuffled, 0, n + 1)[i]
      {
        if i >= 2 {
          assert (i - 2) % 2 == i % 2 && 1 + (i - 2) / 2 == i / 2;
        }
      }
    } else {
      assert [] + [LdsWrite(OperandB, 0)] + BStores(shuffled, 1, n) == seq(n + 1, j => LdsWrite(OperandB, j));
    }
  }

  lemma {:induction false} IterationsStoresB(p: Problem, ao: Coord, bo: Coord, k: nat)
    ensures Project(Iterations(p, ao, bo, k), Stores(OperandB)) == BStores(p.bLayout == RowMajor, 1, k)
  {
    if k > 0 {
      IterationsStoresB(p, ao, bo, k - 1);
      ProjectConcat(Iterations(p, ao, bo, k - 1), Iteration(p, ao, bo, k), Stores(OperandB));
      IterationStores(p, ao, bo, k, OperandB);
      BStoresSnoc(p.bLayout == RowMajor, 1, k - 1);
    }
  }

  /**
   * B is written to LDS once per K block, in order; when row-major every write, in the prologue
   * and in the loop, is directly preceded by a shuffle of B.
   */
  lemma ScheduleStoresB(p: Problem, ao: Coord, bo: Coord, numLoop: int)
    ensures Project(Schedule(p, ao, bo, numLoop), Stores(OperandB))
         == if p.bLayout == RowMajor
            then seq(2 * Trips(numLoop), i => if i % 2 == 0 then Shuffle(OperandB) else LdsWrite(OperandB, i / 2))
            else seq(Trips(numLoop), j => LdsWrite(OperandB, j))
  {
    var n := Trips(numLoop);
    ScheduleProject(p, ao, bo, numLoop, Stores(OperandB));
    PrologueStores(p, ao, bo, OperandB);
    IterationsStoresB(p, ao, bo, n - 1);
    BStoresCons(p.bLayout == RowMajor, n - 1);
  }

  lemma {:induction false} IterationsBarriers(p: Problem, ao: Coord, bo: Coord, k: nat)
    ensures Project(Iterations(p, ao, bo, k), Barriers) == seq(2 * k, _ => Barrier)
  {
    if k > 0 {
      IterationsBarriers(p, ao, bo, k - 1);
      ProjectConcat(Iterations(p, ao, bo, k - 1), Iteration(p, ao, bo, k), Barriers);
      IterationGemms(p, ao, bo, k);
      assert seq(2 * (k - 1), _ => Barrier) + [Barrier] + [Barrier] == seq(2 * k, _ => Barrier);
    }
  }

  /** Two barriers per loop iteration and one in the tail: 2 * Trips(numLoop) - 1 in all. */
  lemma ScheduleBarriers(p: Problem, ao: Coord, bo: Coord, numLoop: int)
    ensures Project(Schedule(p, ao, bo, numLoop), Barriers) == seq(2 * Trips(numLoop) - 1, _ => Barrier)
  {
    var n := Trips(numLoop);
    ScheduleProject(p, ao, bo, numLoop, Barriers);
    PrologueGemms(p, ao, bo);
    IterationsBarriers(p, ao, bo, n - 1);
    assert seq(2 * (n - 1), _ => Barrier) + [Barrier] == seq(2 * n - 1, _ => Barrier);
  }

  // ---------------------------------------------------------------- order of reads and GEMMs

  /** Loop iterations 1 .. k seen through reads of op and GEMMs: read of block j + 1, then GEMM of block j. */
  function Prefetched(p: Problem, op: Operand, o: Coord, k: nat): seq<Event> {
    seq(2 * k, i => if i % 2 == 0 then GlobalRead(op, i / 2 + 1, KOrigin(p, o, i / 2 + 1)) else BlockGemm(i / 2))
  }

  lemma PrefetchedSnoc(p: Problem, op: Operand, o: Coord, k: nat)
    ensures Prefetched(p, op, o, k + 1) == Prefetched(p, op, o, k) + [GlobalRead(op, k + 1, KOrigin(p, o, k + 1)), BlockGemm(k)]
  {
    var r := Prefetched(p, op, o, k) + [GlobalRead(op, k + 1, KOrigin(p, o, k + 1)), BlockGemm(k)];
    forall i | 0 <= i < 2 * k + 2
      ensures r[i] == Prefetched(p, op, o, k + 1)[i]
    {
      if i >= 2 * k {
        assert i / 2 == k;
      }
    }
  }

  /**
   * Read of block 0, k loop iterations, a last GEMM, element by element: the global read of block
   * j + 1 comes directly before GEMM j, and GEMM j directly before the read of block j + 2, so one
   * block is in flight while the previous one is multiplied.
   */
  lemma PrefetchedAt(p: Problem, op: Operand, o: Coord, k: nat)
    ensures var r := [GlobalRead(op, 0, o)] + Prefetched(p, op, o, k) + [BlockGemm(k)];
      && |r| == 2 * k + 2
      && (forall j :: 0 <= j < k ==>
            r[2 * j + 1] == GlobalRead(op, j + 1, KOrigin(p, o, j + 1)) && r[2 * j + 2] == BlockGemm(j))
      && r[2 * k + 1] == BlockGemm(k)
  {
    var mid := Prefetched(p, op, o, k);
    var r := [GlobalRead(op, 0, o)] + mid + [BlockGemm(k)];
    forall j | 0 <= j < k
      ensures r[2 * j + 1] == GlobalRead(op, j + 1, KOrigin(p, o, j + 1)) && r[2 * j + 2] == BlockGemm(j)
    {
      assert r[2 * j + 1] == mid[2 * j] && r[2 * j + 2] == mid[2 * j + 1];
      assert (2 * j) % 2 == 0 && (2 * j) / 2 == j && (2 * j + 1) % 2 == 1 && (2 * j + 1) / 2 == j;
    }
  }

  lemma {:induction false} IterationsReadsAndGemms(p: Problem, ao: Coord, bo: Coord, k: nat, op: Operand)
    ensures Project(Iterations(p, ao, bo, k), ReadsAndGemms(op)) == Prefetched(p, op, Origin(op, ao, bo), k)
  {
    if k > 0 {
      IterationsReadsAndGemms(p, ao, bo, k - 1, op);
      ProjectConcat(Iterations(p, ao, bo, k - 1), Iteration(p, ao, bo, k), ReadsAndGemms(op));
      IterationReadsAndGemms(p, ao, bo, k, op);
      PrefetchedSnoc(p, op, Origin(op, ao, bo), k - 1);
    }
  }

  /**
   * Among reads of op and GEMMs, the schedule is the read of block 0, then for each loop iteration
   * the read of the next block followed by the GEMM of the current one (PrefetchedAt), then the
   * tail's GEMM of the last block.
   */
  lemma ScheduleReadsAndGemms(p: Problem, ao: Coord, bo: Coord, numLoop: int, op: Operand)
    ensures Project(Schedule(p, ao, bo, numLoop), ReadsAndGemms(op))
         == [GlobalRead(op, 0, Origin(op, ao, bo))] + Prefetched(p, op, Origin(op, ao, bo), Trips(numLoop) - 1)
          + [BlockGemm(Trips(numLoop) - 1)]
  {
    var n := Trips(numLoop);
    ScheduleProject(p, ao, bo, numLoop, ReadsAndGemms(op));
    PrologueReadsAndGemms(p, ao, bo, op);
    IterationsReadsAndGemms(p, ao, bo, n - 1, op);
  }

  /**
   * The tail loads and stores nothing: the schedule ends with the last LDS write (of B's last
   * block), a barrier and the GEMM of the last block.
   */
  lemma ScheduleEndsWithTail(p: Problem, ao: Coord, bo: Coord, numLoop: int)
    ensures var t := Schedule(p, ao, bo, numLoop);
      && |t| >= 3
      && t[|t| - 3..] == [LdsWrite(OperandB, Trips(numLoop) - 1), Barrier, BlockGemm(Trips(numLoop) - 1)]
  {
    var n := Trips(numLoop);
    var body := Prologue(p, ao, bo) + Iterations(p, ao, bo, n - 1);
    assert body[|body| - 1] == LdsWrite(OperandB, n - 1) by {
      if n == 1 {
        assert body == Prologue(p, ao, bo);
      } else {
        assert Iterations(p, ao, bo, n - 1) == Iterations(p, ao, bo, n - 2) + Iteration(p, ao, bo, n - 1);
      }
    }
    assert Schedule(p, ao, bo, numLoop) == body + [Barrier] + [BlockGemm(n - 1)];
  }

  // ---------------------------------------------------------------- LDS synchronisation

  /**
   * What the block has done to LDS since the last block_sync_lds: written it (some thread's store
   * may not yet be visible to the others), read it (some thread's GEMM may still be reading).
   */
  datatype Sync = Sync(written: bool, read: bool)

  /** A GEMM reading LDS written since the last barrier, or a store overwriting LDS read since it. */
  predicate Hazard(s: Sync, e: Event) {
    (e.BlockGemm? && s.written) || (e.LdsWrite? && s.read)
  }

  function Next(s: Sync, e: Event): Sync {
    match e
    case Barrier => Sync(false, false)
    case LdsWrite(_, _) => s.(written := true)
    case BlockGemm(_) => s.(read := true)
    case _ => s
  }

  /** No event of t, replayed from s, is a hazard. */
  predicate RaceFree(t: seq<Event>, s: Sync) {
    |t| == 0 || (!Hazard(s, t[0]) && RaceFree(t[1..], Next(s, t[0])))
  }

  /** The synchronisation state after replaying t from s. */
  function After(t: seq<Event>, s: Sync): Sync {
    if |t| == 0 then s else After(t[1..], Next(s, t[0]))
  }

  lemma {:induction false} RaceFreeConcat(t1: seq<Event>, t2: seq<Event>, s: Sync)
    ensures RaceFree(t1 + t2, s) <==> RaceFree(t1, s) && RaceFree(t2, After(t1, s))
    ensures After(t1 + t2, s) == After(t2, After(t1, s))
  {
    if |t1| > 0 {
      assert (t1 + t2)[0] == t1[0];
      assert (t1 + t2)[1..] == t1[1..] + t2;
      RaceFreeConcat(t1[1..], t2, Next(s, t1[0]));
    } else {
      assert t1 + t2 == t2;
    }
  }

  /** Only barriers, LDS writes and GEMMs matter to the replay. */
  lemma {:induction false} RaceFreeProjected(t: seq<Event>, s: Sync)
    ensures RaceFree(t, s) == RaceFree(Project(t, LdsAccesses), s)
    ensures After(t, s) == After(Project(t, LdsAccesses), s)
  {
    if |t| > 0 {
      var rest := Project(t[1..], LdsAccesses);
      RaceFreeProjected(t[1..], Next(s, t[0]));
      if Selects(LdsAccesses, t[0]) {
        assert Project(t, LdsAccesses) == [t[0]] + rest;
        assert ([t[0]] + rest)[0] == t[0];
        assert ([t[0]] + rest)[1..] == rest;
      } else {
        assert Project(t, LdsAccesses) == rest;
        assert Next(s, t[0]) == s && !Hazard(s, t[0]);
      }
    }
  }

  /** One loop iteration's LDS accesses, replayed after the previous iteration's (or the prologue's) writes. */
  lemma IterationLdsRaceFree(i: int)
    ensures RaceFree([Barrier, BlockGemm(i - 1), Barrier, LdsWrite(OperandA, i), LdsWrite(OperandB, i)], Sync(true, false))
    ensures After([Barrier, BlockGemm(i - 1), Barrier, LdsWrite(OperandA, i), LdsWrite(OperandB, i)], Sync(true, false))
         == Sync(true, false)
  {
    var t5 := [LdsWrite(OperandB, i)];
    var t4 := [LdsWrite(OperandA, i)] + t5;
    var t3 := [Barrier] + t4;
    var t2 := [BlockGemm(i - 1)] + t3;
    var t1 := [Barrier] + t2;
    assert t5[1..] == [] && t4[1..] == t5 && t3[1..] == t4 && t2[1..] == t3 && t1[1..] == t2;
    assert RaceFree(t5, Sync(true, false)) && After(t5, Sync(true, false)) == Sync(true, false);
    assert RaceFree(t4, Sync(false, false)) && After(t4, Sync(false, false)) == Sync(true, false);
    assert RaceFree(t3, Sync(false, true)) && After(t3, Sync(false, true)) == Sync(true, false);
    assert RaceFree(t2, Sync(false, false)) && After(t2, Sync(false, false)) == Sync(true, false);
    assert t1 == [Barrier, BlockGemm(i - 1), Barrier, LdsWrite(OperandA, i), LdsWrite(OperandB, i)];
  }

  /** The tail's LDS accesses, replayed after the last iteration's (or the prologue's) writes. */
  lemma TailLdsRaceFree(n: int)
    ensures RaceFree([Barrier, BlockGemm(n - 1)], Sync(true, false))
  {
    var t := [Barrier, BlockGemm(n - 1)];
    assert t[1..] == [BlockGemm(n - 1)];
    assert t[1..][1..] == [];
  }

  /** The prologue's LDS accesses, replayed from a synchronised LDS. */
  lemma PrologueLdsRaceFree()
    ensures RaceFree([LdsWrite(OperandA, 0), LdsWrite(OperandB, 0)], Sync(false, false))
    ensures After([LdsWrite(OperandA, 0), LdsWrite(OperandB, 0)], Sync(false, false)) == Sync(true, false)
  {
    var t := [LdsWrite(OperandA, 0), LdsWrite(OperandB, 0)];
    assert t[1..] == [LdsWrite(OperandB, 0)];
    assert t[1..][1..] == [];
  }

  /** Seen through LDS accesses, iterations 1 .. k are iterations 1 .. k - 1 followed by iteration k's five accesses. */
  lemma IterationsLdsStep(p: Problem, ao: Coord, bo: Coord, k: nat)
    requires k > 0
    ensures Project(Iterations(p, ao, bo, k), LdsAccesses)
         == Project(Iterations(p, ao, bo, k - 1), LdsAccesses)
          + [Barrier, BlockGemm(k - 1), Barrier, LdsWrite(OperandA, k), LdsWrite(OperandB, k)]
  {
    ProjectConcat(Iterations(p, ao, bo, k - 1), Iteration(p, ao, bo, k), LdsAccesses);
    IterationLds(p, ao, bo, k);
  }

  /** Appending one iteration's LDS accesses keeps a race-free replay race free and the state unchanged. */
  lemma RaceFreeAppendIteration(before: seq<Event>, k: int)
    requires RaceFree(before, Sync(true, false)) && After(before, Sync(true, false)) == Sync(true, false)
    ensures var t := before + [Barrier, BlockGemm(k - 1), Barrier, LdsWrite(OperandA, k), LdsWrite(OperandB, k)];
      RaceFree(t, Sync(true, false)) && After(t, Sync(true, false)) == Sync(true, false)
  {
    IterationLdsRaceFree(k);
    RaceFreeConcat(before, [Barrier, BlockGemm(k - 1), Barrier, LdsWrite(OperandA, k), LdsWrite(OperandB, k)], Sync(true, false));
  }

  /**
   * The LDS accesses of loop iterations 1 .. k as the loop body orders them: in iteration i, a
   * barrier, the GEMM reading block i - 1, a second barrier, then the writes of block i.
   */
  function LdsBlocks(k: nat): seq<Event> {
    if k == 0 then []
    else LdsBlocks(k - 1) + [Barrier, BlockGemm(k - 1), Barrier, LdsWrite(OperandA, k), LdsWrite(OperandB, k)]
  }

  lemma {:induction false} IterationsLds(p: Problem, ao: Coord, bo: Coord, k: nat)
    ensures Project(Iterations(p, ao, bo, k), LdsAccesses) == LdsBlocks(k)
  {
    if k > 0 {
      IterationsLds(p, ao, bo, k - 1);
      IterationsLdsStep(p, ao, bo, k);
    } else {
      assert Iterations(p, ao, bo, k) == [];
    }
  }

  /**
   * The LDS accesses of the whole schedule, in order: the prologue writes block 0; each loop
   * iteration i GEMMs block i - 1 between two barriers and only then overwrites LDS with block i;
   * the tail synchronises and GEMMs the last block.
   */
  lemma ScheduleLdsOrder(p: Problem, ao: Coord, bo: Coord, numLoop: int)
    ensures Project(Schedule(p, ao, bo, numLoop), LdsAccesses)
         == [LdsWrite(OperandA, 0), LdsWrite(OperandB, 0)] + LdsBlocks(Trips(numLoop) - 1)
          + [Barrier, BlockGemm(Trips(numLoop) - 1)]
  {
    ScheduleProject(p, ao, bo, numLoop, LdsAccesses);
    PrologueLds(p, ao, bo);
    IterationsLds(p, ao, bo, Trips(numLoop) - 1);
  }

  lemma {:induction false} IterationsRaceFree(p: Problem, ao: Coord, bo: Coord, k: nat)
    ensures RaceFree(Project(Iterations(p, ao, bo, k), LdsAccesses), Sync(true, false))
    ensures After(Project(Iterations(p, ao, bo, k), LdsAccesses), Sync(true, false)) == Sync(true, false)
  {
    if k > 0 {
      IterationsRaceFree(p, ao, bo, k - 1);
      IterationsLdsStep(p, ao, bo, k);
      RaceFreeAppendIteration(Project(Iterations(p, ao, bo, k - 1), LdsAccesses), k);
    } else {
      assert Iterations(p, ao, bo, k) == [];
    }
  }

  /**
   * Replayed from a synchronised LDS, the schedule has no hazard: every GEMM is separated by a
   * barrier from the LDS writes before it, and every LDS write from the GEMMs before it.
   */
  lemma ScheduleRaceFree(p: Problem, ao: Coord, bo: Coord, numLoop: int)
    ensures RaceFree(Schedule(p, ao, bo, numLoop), Sync(false, false))
  {
    var n := Trips(numLoop);
    var pro := Project(Prologue(p, ao, bo), LdsAccesses);
    var mid := Project(Iterations(p, ao, bo, n - 1), LdsAccesses);
    RaceFreeProjected(Schedule(p, ao, bo, numLoop), Sync(false, false));
    ScheduleProject(p, ao, bo, numLoop, LdsAccesses);
    PrologueLds(p, ao, bo);
    PrologueLdsRaceFree();
    IterationsRaceFree(p, ao, bo, n - 1);
    TailLdsRaceFree(n);
    assert Project(Schedule(p, ao, bo, numLoop), LdsAccesses) == (pro + mid) + [Barrier, BlockGemm(n - 1)];
    RaceFreeConcat(pro, mid, Sync(false, false));
    RaceFreeConcat(pro + mid, [Barrier, BlockGemm(n - 1)], Sync(false, false));
  }
}
