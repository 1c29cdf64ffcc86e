/**
 * Tile windows: a rectangular view (origin + extent) onto a tensor in bulk memory (DRAM) or onto
 * one region of a block's LDS scratch memory. A window is mutated in place by Move; its extent and
 * its binding never change.
 */
module TileWindows {
  import opened TileMath

  datatype Operand = OperandA | OperandB

  /** What a window views: a DRAM tensor, or the LDS region that holds one operand's tile. */
  datatype Bottom = Dram(tensor: Tensor) | LdsRegion(op: Operand)

  /** A window handed to the pipeline by its caller (passed by const reference, never moved). */
  datatype BlockWindow = BlockWindow(tensor: Tensor, origin: Coord, lengths: Extent)

  /**
   * The LDS scratch memory of one block. The A region and the B region are disjoint byte ranges
   * (GemmPipeline.LdsRegionsDisjoint), so each is held as a tile of its own.
   */
  class Lds {
    var aTile: Tile
    var bTile: Tile

    constructor ()
      ensures aTile == [] && bTile == []
    {
      aTile, bTile := [], [];
    }
  }

  class TileWindow {
    const bottom: Bottom
    const lengths: Extent
    var origin: Coord

    constructor (bottom: Bottom, lengths: Extent, origin: Coord)
      ensures this.bottom == bottom && this.lengths == lengths && this.origin == origin
    {
      this.bottom, this.lengths, this.origin := bottom, lengths, origin;
    }

    /** move_tile_window: the origin is translated by step; extent and binding are constants. */
    method Move(step: Coord)
      modifies this
      ensures origin == Translate(old(origin), step)
    {
      origin := Translate(origin, step);
    }

    /** load_tile on a DRAM window: element (r, c) of the tile is the tensor element at origin + (r, c). */
    method Load() returns (t: Tile)
      requires bottom.Dram?
      ensures IsTile(t, lengths)
      ensures forall r, c :: 0 <= r < lengths.rows && 0 <= c < lengths.cols ==>
        t[r][c] == bottom.tensor(origin.row + r, origin.col + c)
      ensures t == LoadTile(bottom.tensor, origin, lengths)
    {
      t := LoadTile(bottom.tensor, origin, lengths);
    }

    /**
     * store_tile on an LDS window. The pipeline's LDS windows sit at origin (0, 0) and span the
     * whole region, so a store replaces the region's tile and leaves the other region alone.
     */
    method Store(lds: Lds, t: Tile)
      requires bottom.LdsRegion? && origin == Coord(0, 0) && IsTile(t, lengths)
      modifies lds
      ensures bottom.op == OperandA ==> lds.aTile == t && lds.bTile == old(lds.bTile)
      ensures bottom.op == OperandB ==> lds.bTile == t && lds.aTile == old(lds.aTile)
    {
      if bottom.op == OperandA {
        lds.aTile := t;
      } else {
        lds.bTile := t;
      }
    }

    /** The tile a block GEMM reads through an LDS window at origin (0, 0). */
    function Read(lds: Lds): Tile
      reads this, lds
      requires bottom.LdsRegion? && origin == Coord(0, 0)
    {
      if bottom.op == OperandA then lds.aTile else lds.bTile
    }
  }
}
