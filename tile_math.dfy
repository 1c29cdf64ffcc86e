/**
 * Tiles of integer elements and the arithmetic of a block GEMM on them.
 *
 * The element type is taken to be the integers, a bulk-memory tensor is a total function from
 * (row, column) to an element, and the inner tile multiply-accumulate of the block GEMM is the
 * abstract product C[m][n] += sum over k of A[m][k] * B[n][k]: the B tile is held N x K, as the
 * pipeline's B windows are.
 */
module TileMath {

  type Tensor = (int, int) -> int
  type ElementFunc = int -> int
  type Tile = seq<seq<int>>

  datatype Coord = Coord(row: int, col: int)

  /** Extent of a window or tile: rows x columns. */
  datatype Extent = Extent(rows: nat, cols: nat)

  function Translate(o: Coord, step: Coord): Coord {
    Coord(o.row + step.row, o.col + step.col)
  }

  predicate IsTile(t: Tile, e: Extent) {
    |t| == e.rows && forall r :: 0 <= r < |t| ==> |t[r]| == e.cols
  }

  function ZeroTile(e: Extent): (t: Tile)
    ensures IsTile(t, e)
  {
    seq(e.rows, r => seq(e.cols, c => 0))
  }

  /** The elements of tensor x covered by a window at origin o with extent e. */
  function LoadTile(x: Tensor, o: Coord, e: Extent): (t: Tile)
    ensures IsTile(t, e)
  {
    seq(e.rows, r => seq(e.cols, c => x(o.row + r, o.col + c)))
  }

  /** An element function applied to every element of a tile. */
  function MapTile(f: ElementFunc, t: Tile): (u: Tile)
    ensures |u| == |t| && forall r :: 0 <= r < |t| ==> |u[r]| == |t[r]|
  {
    seq(|t|, r requires 0 <= r < |t| => seq(|t[r]|, c requires 0 <= c < |t[r]| => f(t[r][c])))
  }

  /** Dot product of two equally long rows. */
  function Dot(a: seq<int>, b: seq<int>): int
    requires |a| == |b|
  {
    if |a| == 0 then 0 else Dot(a[..|a| - 1], b[..|b| - 1]) + a[|a| - 1] * b[|b| - 1]
  }

  /** One block GEMM step: c[m][n] += Dot(a[m], b[n]) for an M x N accumulator, M x K tile a and N x K tile b. */
  function GemmAcc(c: Tile, a: Tile, b: Tile, k: nat): (r: Tile)
    requires IsTile(c, Extent(|c|, |b|)) && IsTile(a, Extent(|c|, k)) && IsTile(b, Extent(|b|, k))
    ensures IsTile(r, Extent(|c|, |b|))
  {
    seq(|c|, m requires 0 <= m < |c| => seq(|b|, n requires 0 <= n < |b| => c[m][n] + Dot(a[m], b[n])))
  }

  /**
   * An operand as the pipeline feeds it: the element function applied to the tensor's elements,
   * addressed relative to the block window's origin.
   */
  datatype Feed = Feed(tensor: Tensor, func: ElementFunc, origin: Coord) {
    function At(r: int, k: int): int {
      func(tensor(origin.row + r, origin.col + k))
    }
  }

  /**
   * The tile of a feed that the pipeline stages for the K block starting at column k0:
   * loaded at origin + (0, k0) with extent e, then passed through the element function.
   */
  function Staged(f: Feed, e: Extent, k0: int): (t: Tile)
    ensures IsTile(t, e)
  {
    MapTile(f.func, LoadTile(f.tensor, Translate(f.origin, Coord(0, k0)), e))
  }

  /** sum over k in [lo, lo + len) of a.At(m, k) * b.At(n, k). */
  function KDot(a: Feed, b: Feed, m: int, n: int, lo: int, len: nat): int {
    if len == 0 then 0 else KDot(a, b, m, n, lo, len - 1) + a.At(m, lo + len - 1) * b.At(n, lo + len - 1)
  }

  /** The reference result: every (m, n) entry is the full dot product over the first kLen columns. */
  function Reference(a: Feed, b: Feed, rows: nat, cols: nat, kLen: nat): (t: Tile)
    ensures IsTile(t, Extent(rows, cols))
  {
    seq(rows, m => seq(cols, n => KDot(a, b, m, n, 0, kLen)))
  }

  lemma {:induction false} StagedAt(f: Feed, e: Extent, k0: int, r: int, c: int)
    requires 0 <= r < e.rows && 0 <= c < e.cols
    ensures Staged(f, e, k0)[r][c] == f.At(r, k0 + c)
  {
  }

  /** A dot product splits at any point of its range. */
  lemma {:induction false} KDotSplit(a: Feed, b: Feed, m: int, n: int, lo: int, p: nat, q: nat)
    ensures KDot(a, b, m, n, lo, p + q) == KDot(a, b, m, n, lo, p) + KDot(a, b, m, n, lo + p, q)
  {
    if q > 0 {
      KDotSplit(a, b, m, n, lo, p, q - 1);
    }
  }

  /** The dot product of row m of A's staged tile and row n of B's staged tile is the K-range sum at k0. */
  lemma {:induction false} DotOfStaged(a: Feed, b: Feed, rows: nat, cols: nat, k: nat, k0: int, m: int, n: int, len: nat)
    requires 0 <= m < rows && 0 <= n < cols && len <= k
    ensures Dot(Staged(a, Extent(rows, k), k0)[m][..len], Staged(b, Extent(cols, k), k0)[n][..len])
         == KDot(a, b, m, n, k0, len)
  {
    var ra := Staged(a, Extent(rows, k), k0)[m];
    var rb := Staged(b, Extent(cols, k), k0)[n];
    if len > 0 {
      DotOfStaged(a, b, rows, cols, k, k0, m, n, len - 1);
      DotSnoc(ra, rb, len);
      StagedAt(a, Extent(rows, k), k0, m, len - 1);
      StagedAt(b, Extent(cols, k), k0, n, len - 1);
    }
  }

  /** The dot product of two prefixes of length len adds the product of their last elements to the shorter ones'. */
  lemma DotSnoc(ra: seq<int>, rb: seq<int>, len: nat)
    requires 0 < len <= |ra| && len <= |rb|
    ensures Dot(ra[..len], rb[..len]) == Dot(ra[..len - 1], rb[..len - 1]) + ra[len - 1] * rb[len - 1]
  {
    assert ra[..len][..len - 1] == ra[..len - 1];
    assert rb[..len][..len - 1] == rb[..len - 1];
  }

  /**
   * One block GEMM on the tiles staged at column k0 extends the reference over the first k0
   * columns to the reference over the first k0 + k columns.
   */
  lemma {:induction false} GemmExtends(a: Feed, b: Feed, rows: nat, cols: nat, k: nat, k0: nat)
    ensures GemmAcc(Reference(a, b, rows, cols, k0), Staged(a, Extent(rows, k), k0), Staged(b, Extent(cols, k), k0), k)
         == Reference(a, b, rows, cols, k0 + k)
  {
    var sa := Staged(a, Extent(rows, k), k0);
    var sb := Staged(b, Extent(cols, k), k0);
    var after := GemmAcc(Reference(a, b, rows, cols, k0), sa, sb, k);
    var want := Reference(a, b, rows, cols, k0 + k);
    forall m | 0 <= m < rows
      ensures after[m] == want[m]
    {
      forall n | 0 <= n < cols
        ensures after[m][n] == want[m][n]
      {
        DotOfStaged(a, b, rows, cols, k, k0, m, n, k);
        assert sa[m][..k] == sa[m];
        assert sb[n][..k] == sb[n];
        KDotSplit(a, b, m, n, 0, k0, k);
      }
    }
  }

  /**
   * One block GEMM on the tiles staged for K block j takes the reference over the first j blocks
   * to the reference over the first j + 1 blocks.
   */
  lemma {:induction false} GemmAdvances(a: Feed, b: Feed, rows: nat, cols: nat, k: nat, j: nat)
    ensures GemmAcc(Reference(a, b, rows, cols, j * k), Staged(a, Extent(rows, k), j * k), Staged(b, Extent(cols, k), j * k), k)
         == Reference(a, b, rows, cols, (j + 1) * k)
  {
    GemmExtends(a, b, rows, cols, k, j * k);
    assert (j + 1) * k == j * k + k;
  }

  /** The zeroed accumulator is the reference over an empty K range. */
  lemma ZeroIsEmptyReference(a: Feed, b: Feed, rows: nat, cols: nat)
    ensures ZeroTile(Extent(rows, cols)) == Reference(a, b, rows, cols, 0)
  {
    assert forall m | 0 <= m < rows :: ZeroTile(Extent(rows, cols))[m] == Reference(a, b, rows, cols, 0)[m];
  }
}
