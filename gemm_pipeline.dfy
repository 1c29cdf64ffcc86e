/**
 * The v1 block GEMM pipeline (A and B from global memory through LDS, C in registers):
 * the LDS sizing and partitioning, the event schedule of one invocation, and the invocation itself
 * (prologue, counted steady-state loop, one-step tail).
 */
module GemmPipeline {
  import opened TileMath
  import opened TileWindows
  import Arith

  datatype Layout = RowMajor | ColumnMajor

  /**
   * The compile-time parameters of one pipeline instance: the block tile, the operand layouts,
   * sizeof of the A and B element types, and the element space sizes of the A and B LDS block
   * descriptors (which come from the policy and are taken as given).
   */
  datatype Problem = Problem(
    kMPerBlock: nat, kNPerBlock: nat, kKPerBlock: nat,
    aLayout: Layout, bLayout: Layout,
    aElemBytes: nat, bElemBytes: nat,
    aLdsElems: nat, bLdsElems: nat)

  // ---------------------------------------------------------------- LDS sizing and layout

  /** integer_divide_ceil on non-negative operands. */
  function CeilDiv(x: nat, y: nat): nat
    requires y > 0
  {
    (x + y - 1) / y
  }

  function ALdsBytes(p: Problem): nat { p.aElemBytes * p.aLdsElems }

  function BLdsBytes(p: Problem): nat { p.bElemBytes * p.bLdsElems }

  /** Byte offset of the B region: the A region's byte size rounded up to a multiple of 16. */
  function BLdsOffset(p: Problem): (offset: nat)
    ensures offset % 16 == 0 && ALdsBytes(p) <= offset < ALdsBytes(p) + 16
  {
    Arith.CeilDivBounds(ALdsBytes(p), 16);
    CeilDiv(ALdsBytes(p), 16) * 16
  }

  /** GetStaticLdsSize: room for both regions, with under 16 bytes of alignment padding between them. */
  function StaticLdsSize(p: Problem): (size: nat)
    ensures ALdsBytes(p) + BLdsBytes(p) <= size < ALdsBytes(p) + BLdsBytes(p) + 16
  {
    BLdsOffset(p) + BLdsBytes(p)
  }

  predicate InARegion(p: Problem, byte: int) { 0 <= byte < ALdsBytes(p) }

  predicate InBRegion(p: Problem, byte: int) { BLdsOffset(p) <= byte < BLdsOffset(p) + BLdsBytes(p) }

  /**
   * The B region starts 16-byte aligned, past the end of the A region and less than 16 bytes after
   * it; no byte lies in both regions, and both lie within GetStaticLdsSize bytes.
   */
  lemma {:induction false} LdsRegionsDisjoint(p: Problem)
    ensures BLdsOffset(p) % 16 == 0
    ensures ALdsBytes(p) <= BLdsOffset(p) < ALdsBytes(p) + 16
    ensures ALdsBytes(p) + BLdsBytes(p) <= StaticLdsSize(p) < ALdsBytes(p) + BLdsBytes(p) + 16
    ensures forall byte :: !(InARegion(p, byte) && InBRegion(p, byte))
    ensures forall byte :: InARegion(p, byte) || InBRegion(p, byte) ==> 0 <= byte < StaticLdsSize(p)
  {
    Arith.CeilDivBounds(ALdsBytes(p), 16);
  }

  // ---------------------------------------------------------------- events and the schedule

  /** The observable steps of one pipeline invocation, in program order. */
  datatype Event =
    | GlobalRead(op: Operand, block: int, origin: Coord)   // load_tile from the DRAM copy window
    | MoveWindow(op: Operand, origin: Coord)               // move_tile_window; origin after the move
    | ClearAcc                                             // the accumulator tile is zeroed
    | Shuffle(op: Operand)                                 // shuffle_tile before an LDS write
    | LdsWrite(op: Operand, block: int)                    // store_tile into the operand's LDS region
    | Barrier                                              // block_sync_lds
    | BlockGemm(block: int)                                // block_gemm on the K block held in LDS

  /** How many K blocks are multiplied: num_loop when it is positive, else the tail's single one. */
  function Trips(numLoop: int): (n: nat)
    ensures n >= 1
  {
    if numLoop >= 1 then numLoop else 1
  }

  /** Origin of a DRAM copy window after it has advanced j K blocks. */
  function KOrigin(p: Problem, o: Coord, j: int): Coord {
    Translate(o, Coord(0, j * p.kKPerBlock))
  }

  /** Global read of block 0, windows advanced to block 1, accumulator cleared, block 0 written to LDS. */
  function Prologue(p: Problem, ao: Coord, bo: Coord): seq<Event> {
    [GlobalRead(OperandA, 0, ao)] + [GlobalRead(OperandB, 0, bo)]
    + [MoveWindow(OperandA, KOrigin(p, ao, 1))] + [MoveWindow(OperandB, KOrigin(p, bo, 1))]
    + [ClearAcc]
    + (if p.aLayout == ColumnMajor then [Shuffle(OperandA)] else []) + [LdsWrite(OperandA, 0)]
    + (if p.bLayout == RowMajor then [Shuffle(OperandB)] else []) + [LdsWrite(OperandB, 0)]
  }

  /**
   * Loop iteration i (i >= 1): global read of block i, barrier, GEMM of block i - 1, barrier,
   * windows advanced to block i + 1, block i written to LDS. A is stored without a shuffle here
   * whatever its layout; a row-major B is shuffled.
   */
  function Iteration(p: Problem, ao: Coord, bo: Coord, i: nat): seq<Event>
    requires i >= 1
  {
    [GlobalRead(OperandA, i, KOrigin(p, ao, i))] + [GlobalRead(OperandB, i, KOrigin(p, bo, i))]
    + [Barrier] + [BlockGemm(i - 1)] + [Barrier]
    + [MoveWindow(OperandA, KOrigin(p, ao, i + 1))] + [MoveWindow(OperandB, KOrigin(p, bo, i + 1))]
    + [LdsWrite(OperandA, i)]
    + (if p.bLayout == RowMajor then [Shuffle(OperandB)] else []) + [LdsWrite(OperandB, i)]
  }

  /** Iterations 1 .. k in order. */
  function Iterations(p: Problem, ao: Coord, bo: Coord, k: nat): seq<Event> {
    if k == 0 then [] else Iterations(p, ao, bo, k - 1) + Iteration(p, ao, bo, k)
  }

  /** The tail: one barrier and the GEMM of the last block; no memory movement. */
  function Tail(n: nat): seq<Event>
    requires n >= 1
  {
    [Barrier] + [BlockGemm(n - 1)]
  }

  /** Everything one invocation does, for DRAM windows starting at ao and bo. */
  function Schedule(p: Problem, ao: Coord, bo: Coord, numLoop: int): seq<Event> {
    Prologue(p, ao, bo) + Iterations(p, ao, bo, Trips(numLoop) - 1) + Tail(Trips(numLoop))
  }

  // ---------------------------------------------------------------- the invocation

  function Identity(x: int): int { x }

  /**
   * The six windows of one invocation: the DRAM copy windows advanced j K blocks from the feeds'
   * origins, the LDS copy and GEMM windows at (0, 0); every extent is the block tile's.
   */
  ghost predicate WindowsAt(p: Problem, aFeed: Feed, bFeed: Feed, j: int,
                            aCopyDram: TileWindow, bCopyDram: TileWindow, aCopyLds: TileWindow,
                            bCopyLds: TileWindow, aLdsGemm: TileWindow, bLdsGemm: TileWindow)
    reads aCopyDram, bCopyDram, aCopyLds, bCopyLds, aLdsGemm, bLdsGemm
  {
    && aCopyDram != bCopyDram
    && aCopyDram.bottom == Dram(aFeed.tensor) && aCopyDram.lengths == Extent(p.kMPerBlock, p.kKPerBlock)
    && bCopyDram.bottom == Dram(bFeed.tensor) && bCopyDram.lengths == Extent(p.kNPerBlock, p.kKPerBlock)
    && aCopyDram.origin == KOrigin(p, aFeed.origin, j) && bCopyDram.origin == KOrigin(p, bFeed.origin, j)
    && aCopyLds.bottom == aLdsGemm.bottom == LdsRegion(OperandA)
    && bCopyLds.bottom == bLdsGemm.bottom == LdsRegion(OperandB)
    && aCopyLds.lengths == aLdsGemm.lengths == Extent(p.kMPerBlock, p.kKPerBlock)
    && bCopyLds.lengths == bLdsGemm.lengths == Extent(p.kNPerBlock, p.kKPerBlock)
    && aCopyLds.origin == bCopyLds.origin == aLdsGemm.origin == bLdsGemm.origin == Coord(0, 0)
  }

  /** LDS holds K block j of both operands, each passed through its element function. */
  ghost predicate LdsHolds(p: Problem, aFeed: Feed, bFeed: Feed, lds: Lds, j: int)
    reads lds
  {
    && lds.aTile == Staged(aFeed, Extent(p.kMPerBlock, p.kKPerBlock), j * p.kKPerBlock)
    && lds.bTile == Staged(bFeed, Extent(p.kNPerBlock, p.kKPerBlock), j * p.kKPerBlock)
  }

  /**
   * operator() with element functions. The result is the reference product of the two operands
   * over Trips(numLoop) K blocks starting at the windows' origins; the steps taken are Schedule;
   * LDS is left holding the last block staged.
   */
  method Run(p: Problem, aWindow: BlockWindow, fa: ElementFunc, bWindow: BlockWindow, fb: ElementFunc,
             numLoop: int, lds: Lds)
    returns (c: Tile, trace: seq<Event>)
    requires aWindow.lengths == Extent(p.kMPerBlock, p.kKPerBlock)
    requires bWindow.lengths.rows == p.kNPerBlock
    modifies lds
    ensures c == Reference(Feed(aWindow.tensor, fa, aWindow.origin), Feed(bWindow.tensor, fb, bWindow.origin),
                           p.kMPerBlock, p.kNPerBlock, Trips(numLoop) * p.kKPerBlock)
    ensures trace == Schedule(p, aWindow.origin, bWindow.origin, numLoop)
    ensures LdsHolds(p, Feed(aWindow.tensor, fa, aWindow.origin), Feed(bWindow.tensor, fb, bWindow.origin), lds,
                     Trips(numLoop) - 1)
  {
    var kM, kN, kK := p.kMPerBlock, p.kNPerBlock, p.kKPerBlock;
    ghost var aFeed := Feed(aWindow.tensor, fa, aWindow.origin);
    ghost var bFeed := Feed(bWindow.tensor, fb, bWindow.origin);
    ghost var ao, bo := aWindow.origin, bWindow.origin;

    var aCopyDram := new TileWindow(Dram(aWindow.tensor), Extent(kM, kK), aWindow.origin);
    var aCopyLds := new TileWindow(LdsRegion(OperandA), Extent(kM, kK), Coord(0, 0));
    var bCopyDram := new TileWindow(Dram(bWindow.tensor), Extent(kN, kK), bWindow.origin);
    var bCopyLds := new TileWindow(LdsRegion(OperandB), Extent(kN, kK), Coord(0, 0));
    var aLdsGemm := new TileWindow(LdsRegion(OperandA), Extent(kM, kK), Coord(0, 0));
    var bLdsGemm := new TileWindow(LdsRegion(OperandB), Extent(kN, kK), Coord(0, 0));
    assert KOrigin(p, ao, 0) == ao && KOrigin(p, bo, 0) == bo;

    var prologue, iterations, last;
    c, prologue := Prefetch(p, fa, fb, aFeed, bFeed, aCopyDram, bCopyDram, aCopyLds, bCopyLds, aLdsGemm, bLdsGemm, lds);
    var staged;
    c, iterations, staged := MainLoop(p, fa, fb, aFeed, bFeed, numLoop, c,
                                      aCopyDram, bCopyDram, aCopyLds, bCopyLds, aLdsGemm, bLdsGemm, lds);
    c, last := Finish(p, aFeed, bFeed, staged, c, aLdsGemm, bLdsGemm, lds);
    trace := prologue + iterations + last;
  }

  /**
   * The steady-state loop: iCounter counts down from num_loop - 1, and each pass multiplies the
   * block held in LDS while the next one is fetched. On exit block Trips(numLoop) - 1 is in LDS.
   */
  method MainLoop(p: Problem, fa: ElementFunc, fb: ElementFunc, ghost aFeed: Feed, ghost bFeed: Feed,
                  numLoop: int, c: Tile,
                  aCopyDram: TileWindow, bCopyDram: TileWindow, aCopyLds: TileWindow,
                  bCopyLds: TileWindow, aLdsGemm: TileWindow, bLdsGemm: TileWindow, lds: Lds)
    returns (c': Tile, trace: seq<Event>, staged: nat)
    requires aFeed.func == fa && bFeed.func == fb
    requires WindowsAt(p, aFeed, bFeed, 1, aCopyDram, bCopyDram, aCopyLds, bCopyLds, aLdsGemm, bLdsGemm)
    requires LdsHolds(p, aFeed, bFeed, lds, 0)
    requires c == Reference(aFeed, bFeed, p.kMPerBlock, p.kNPerBlock, 0)
    modifies aCopyDram, bCopyDram, lds
    ensures staged == Trips(numLoop) - 1
    ensures WindowsAt(p, aFeed, bFeed, staged + 1, aCopyDram, bCopyDram, aCopyLds, bCopyLds, aLdsGemm, bLdsGemm)
    ensures LdsHolds(p, aFeed, bFeed, lds, staged)
    ensures c' == Reference(aFeed, bFeed, p.kMPerBlock, p.kNPerBlock, staged * p.kKPerBlock)
    ensures trace == Iterations(p, aFeed.origin, bFeed.origin, staged)
  {
    c', trace, staged := c, [], 0;
    var iCounter := numLoop - 1;
    while iCounter > 0
      invariant staged == numLoop - 1 - iCounter
      invariant numLoop >= 1 ==> iCounter >= 0
      invariant staged <= Trips(numLoop) - 1
      invariant WindowsAt(p, aFeed, bFeed, staged + 1, aCopyDram, bCopyDram, aCopyLds, bCopyLds, aLdsGemm, bLdsGemm)
      invariant LdsHolds(p, aFeed, bFeed, lds, staged)
      invariant c' == Reference(aFeed, bFeed, p.kMPerBlock, p.kNPerBlock, staged * p.kKPerBlock)
      invariant trace == Iterations(p, aFeed.origin, bFeed.origin, staged)
      decreases iCounter
    {
      var step;
      c', step := SteadyIteration(p, fa, fb, aFeed, bFeed, staged, c',
                                  aCopyDram, bCopyDram, aCopyLds, bCopyLds, aLdsGemm, bLdsGemm, lds);
      trace := trace + step;
      iCounter := iCounter - 1;
      staged := staged + 1;
    }
  }

  /** The tail: a barrier and the GEMM of the block j held in LDS; nothing is loaded or stored. */
  method Finish(p: Problem, ghost aFeed: Feed, ghost bFeed: Feed, j: nat, c: Tile,
                aLdsGemm: TileWindow, bLdsGemm: TileWindow, lds: Lds)
    returns (c': Tile, step: seq<Event>)
    requires aLdsGemm.bottom == LdsRegion(OperandA) && bLdsGemm.bottom == LdsRegion(OperandB)
    requires aLdsGemm.origin == bLdsGemm.origin == Coord(0, 0)
    requires LdsHolds(p, aFeed, bFeed, lds, j)
    requires c == Reference(aFeed, bFeed, p.kMPerBlock, p.kNPerBlock, j * p.kKPerBlock)
    ensures c' == Reference(aFeed, bFeed, p.kMPerBlock, p.kNPerBlock, (j + 1) * p.kKPerBlock)
    ensures step == Tail(j + 1)
  {
    step := [Barrier];
    GemmAdvances(aFeed, bFeed, p.kMPerBlock, p.kNPerBlock, p.kKPerBlock, j);
    c' := GemmAcc(c, aLdsGemm.Read(lds), bLdsGemm.Read(lds), p.kKPerBlock);
    step := step + [BlockGemm(j)];
  }

  /**
   * The prologue: global read of block 0, both DRAM windows moved to block 1, the accumulator
   * zeroed, block 0 written to LDS (a column-major A and a row-major B are shuffled first).
   */
  method Prefetch(p: Problem, fa: ElementFunc, fb: ElementFunc, ghost aFeed: Feed, ghost bFeed: Feed,
                  aCopyDram: TileWindow, bCopyDram: TileWindow, aCopyLds: TileWindow,
                  bCopyLds: TileWindow, aLdsGemm: TileWindow, bLdsGemm: TileWindow, lds: Lds)
    returns (c: Tile, trace: seq<Event>)
    requires aFeed.func == fa && bFeed.func == fb
    requires WindowsAt(p, aFeed, bFeed, 0, aCopyDram, bCopyDram, aCopyLds, bCopyLds, aLdsGemm, bLdsGemm)
    modifies aCopyDram, bCopyDram, lds
    ensures WindowsAt(p, aFeed, bFeed, 1, aCopyDram, bCopyDram, aCopyLds, bCopyLds, aLdsGemm, bLdsGemm)
    ensures LdsHolds(p, aFeed, bFeed, lds, 0)
    ensures c == Reference(aFeed, bFeed, p.kMPerBlock, p.kNPerBlock, 0)
    ensures trace == Prologue(p, aFeed.origin, bFeed.origin)
  {
    var kK := p.kKPerBlock;

    // global read 0
    var aBlock := aCopyDram.Load();
    trace := [GlobalRead(OperandA, 0, aCopyDram.origin)];
    var bBlock := bCopyDram.Load();
    trace := trace + [GlobalRead(OperandB, 0, bCopyDram.origin)];

    // move to 1
    aCopyDram.Move(Coord(0, kK));
    trace := trace + [MoveWindow(OperandA, aCopyDram.origin)];
    bCopyDram.Move(Coord(0, kK));
    trace := trace + [MoveWindow(OperandB, bCopyDram.origin)];

    // initialize C
    c := ZeroTile(Extent(p.kMPerBlock, p.kNPerBlock));
    ZeroIsEmptyReference(aFeed, bFeed, p.kMPerBlock, p.kNPerBlock);
    trace := trace + [ClearAcc];

    // LDS write 0; shuffle_tile only changes which lane holds an element, not the logical tile
    if p.aLayout == ColumnMajor {
      trace := trace + [Shuffle(OperandA)];
    }
    aCopyLds.Store(lds, MapTile(fa, aBlock));
    trace := trace + [LdsWrite(OperandA, 0)];
    if p.bLayout == RowMajor {
      trace := trace + [Shuffle(OperandB)];
    }
    bCopyLds.Store(lds, MapTile(fb, bBlock));
    trace := trace + [LdsWrite(OperandB, 0)];
  }

  /**
   * One steady-state iteration with block j in LDS: global read of block j + 1, barrier, GEMM of
   * block j, barrier, DRAM windows moved on, block j + 1 written to LDS. A is stored without a
   * shuffle whatever its layout; a row-major B is shuffled.
   */
  method SteadyIteration(p: Problem, fa: ElementFunc, fb: ElementFunc, ghost aFeed: Feed, ghost bFeed: Feed,
                         j: nat, c: Tile,
                         aCopyDram: TileWindow, bCopyDram: TileWindow, aCopyLds: TileWindow,
                         bCopyLds: TileWindow, aLdsGemm: TileWindow, bLdsGemm: TileWindow, lds: Lds)
    returns (c': Tile, step: seq<Event>)
    requires aFeed.func == fa && bFeed.func == fb
    requires WindowsAt(p, aFeed, bFeed, j + 1, aCopyDram, bCopyDram, aCopyLds, bCopyLds, aLdsGemm, bLdsGemm)
    requires LdsHolds(p, aFeed, bFeed, lds, j)
    requires c == Reference(aFeed, bFeed, p.kMPerBlock, p.kNPerBlock, j * p.kKPerBlock)
    modifies aCopyDram, bCopyDram, lds
    ensures WindowsAt(p, aFeed, bFeed, j + 2, aCopyDram, bCopyDram, aCopyLds, bCopyLds, aLdsGemm, bLdsGemm)
    ensures LdsHolds(p, aFeed, bFeed, lds, j + 1)
    ensures c' == Reference(aFeed, bFeed, p.kMPerBlock, p.kNPerBlock, (j + 1) * p.kKPerBlock)
    ensures step == Iteration(p, aFeed.origin, bFeed.origin, j + 1)
  {
    var kK := p.kKPerBlock;
    var next := j + 1;
    ghost var ao, bo := aFeed.origin, bFeed.origin;

    // global read i + 1
    var aBlock := aCopyDram.Load();
    step := [GlobalRead(OperandA, next, aCopyDram.origin)];
    var bBlock := bCopyDram.Load();
    step := step + [GlobalRead(OperandB, next, bCopyDram.origin)];

    step := step + [Barrier];

    // GEMM i
    GemmAdvances(aFeed, bFeed, p.kMPerBlock, p.kNPerBlock, kK, j);
    c' := GemmAcc(c, aLdsGemm.Read(lds), bLdsGemm.Read(lds), kK);
    step := step + [BlockGemm(j)];

    step := step + [Barrier];

    // move to i + 2
    aCopyDram.Move(Coord(0, kK));
    step := step + [MoveWindow(OperandA, aCopyDram.origin)];
    bCopyDram.Move(Coord(0, kK));
    step := step + [MoveWindow(OperandB, bCopyDram.origin)];
    assert (next + 1) * kK == next * kK + kK;
    assert aCopyDram.origin == KOrigin(p, ao, next + 1);
    assert bCopyDram.origin == KOrigin(p, bo, next + 1);

    // LDS write i + 1
    aCopyLds.Store(lds, MapTile(fa, aBlock));
    step := step + [LdsWrite(OperandA, next)];
    if p.bLayout == RowMajor {
      step := step + [Shuffle(OperandB)];
    }
    bCopyLds.Store(lds, MapTile(fb, bBlock));
    step := step + [LdsWrite(OperandB, next)];
  }

  /** operator() without element functions: the same invocation with both functions the identity. */
  method RunPlain(p: Problem, aWindow: BlockWindow, bWindow: BlockWindow, numLoop: int, lds: Lds)
    returns (c: Tile, trace: seq<Event>)
    requires aWindow.lengths == Extent(p.kMPerBlock, p.kKPerBlock)
    requires bWindow.lengths.rows == p.kNPerBlock
    modifies lds
    ensures c == Reference(Feed(aWindow.tensor, Identity, aWindow.origin), Feed(bWindow.tensor, Identity, bWindow.origin),
                           p.kMPerBlock, p.kNPerBlock, Trips(numLoop) * p.kKPerBlock)
    ensures forall m, n :: 0 <= m < p.kMPerBlock && 0 <= n < p.kNPerBlock ==>
      c[m][n] == TensorDot(aWindow.tensor, aWindow.origin, bWindow.tensor, bWindow.origin, m, n, Trips(numLoop) * p.kKPerBlock)
    ensures trace == Schedule(p, aWindow.origin, bWindow.origin, numLoop)
  {
    c, trace := Run(p, aWindow, Identity, bWindow, Identity, numLoop, lds);
    forall m, n | 0 <= m < p.kMPerBlock && 0 <= n < p.kNPerBlock
      ensures c[m][n] == TensorDot(aWindow.tensor, aWindow.origin, bWindow.tensor, bWindow.origin, m, n, Trips(numLoop) * p.kKPerBlock)
    {
      IdentityFeedDot(aWindow.tensor, aWindow.origin, bWindow.tensor, bWindow.origin, m, n, Trips(numLoop) * p.kKPerBlock);
    }
  }

  /** sum over k < len of x(xo + (m, k)) * y(yo + (n, k)): the plain dot product of the two tensors' rows. */
  function TensorDot(x: Tensor, xo: Coord, y: Tensor, yo: Coord, m: int, n: int, len: nat): int {
    if len == 0 then 0
    else TensorDot(x, xo, y, yo, m, n, len - 1) + x(xo.row + m, xo.col + len - 1) * y(yo.row + n, yo.col + len - 1)
  }

  /** With identity element functions the fed dot product is the plain one. */
  lemma {:induction false} IdentityFeedDot(x: Tensor, xo: Coord, y: Tensor, yo: Coord, m: int, n: int, len: nat)
    ensures KDot(Feed(x, Identity, xo), Feed(y, Identity, yo), m, n, 0, len) == TensorDot(x, xo, y, yo, m, n, len)
  {
    if len > 0 {
      IdentityFeedDot(x, xo, y, yo, m, n, len - 1);
    }
  }
}
