/**
 * A layer of terrain (source/level/Layer.cpp): a fixed width x height grid of
 * block cells, stored row by row, with a position and a velocity in units of
 * 1/256 pixel. Layers can move, carrying or pushing the entities on them.
 *
 * The pure queries work on `LayerState`, the value of a layer; the class
 * `Layer` holds the grid in an array that `AddBlock` writes in place.
 */
module Layers {

  import opened Wrappers
  import Util
  import B = Blocks

  datatype LayerData = LayerData(
    width: nat,    // in tiles
    height: nat,   // in tiles
    positionX: int,
    positionY: int,
    velocityX: int,
    velocityY: int,
    cells: seq<Option<B.Block>>)

  /** The value of a layer: the grid holds exactly width * height cells. */
  type LayerState = l: LayerData | |l.cells| == l.width * l.height
    witness LayerData(0, 0, 0, 0, 0, 0, [])

  /** Cell (x, y) of a width-wide grid lies at index y * width + x. */
  lemma {:induction false} CellIndexInRange(w: nat, h: nat, x: int, y: int)
    requires 0 <= x < w && 0 <= y < h
    ensures 0 <= y * w + x < w * h
  {
    assert y * w + x < (y + 1) * w;
    assert (y + 1) * w <= h * w by {
      if y + 1 < h {
        Util.MulAtLeast(h - (y + 1), w);
        assert h * w - (y + 1) * w == (h - (y + 1)) * w;
      }
    }
  }

  /** An index of a width-wide grid names column k % width of row k / width. */
  lemma IndexDecompose(w: nat, h: nat, k: int)
    requires 0 <= k < w * h
    ensures w > 0 && 0 <= k % w < w && 0 <= k / w < h && k == (k / w) * w + k % w
  {
    if k / w >= h {
      Util.MulMonotone(h, k / w, w);
    }
  }

  /** The cell index y * width + x of an in-grid cell gives back (x, y). */
  lemma IndexCompose(w: nat, x: int, y: int)
    requires 0 <= x < w && 0 <= y
    ensures (y * w + x) / w == y && (y * w + x) % w == x
  {
    Util.DivUnique(y * w + x, w, y, x);
  }

  /** getX: the layer's pixel column, floor(positionX). */
  function GetX(l: LayerState): int { Util.PixelFloor(l.positionX) }

  /** getY: the layer's pixel row, floor(positionY). */
  function GetY(l: LayerState): int { Util.PixelFloor(l.positionY) }

  /** A layer's pixel position is the floor of its physical position. */
  lemma PositionFloor(l: LayerState)
    ensures GetX(l) * Util.UNITS_PER_PIXEL <= l.positionX < (GetX(l) + 1) * Util.UNITS_PER_PIXEL
    ensures GetY(l) * Util.UNITS_PER_PIXEL <= l.positionY < (GetY(l) + 1) * Util.UNITS_PER_PIXEL
  {
  }

  /** getBlock: the cell at tile (x, y), or none outside the grid. */
  function GetBlock(l: LayerState, x: int, y: int): (r: Option<B.Block>)
    ensures !(0 <= x < l.width && 0 <= y < l.height) ==> r == None
  {
    if x < 0 || x >= l.width || y < 0 || y >= l.height then None
    else
      CellIndexInRange(l.width, l.height, x, y);
      l.cells[y * l.width + x]
  }

  /** Inside the grid, getBlock reads the cell stored row by row. */
  lemma GetBlockInside(l: LayerState, x: int, y: int)
    requires 0 <= x < l.width && 0 <= y < l.height
    ensures 0 <= y * l.width + x < |l.cells| && GetBlock(l, x, y) == l.cells[y * l.width + x]
  {
    CellIndexInRange(l.width, l.height, x, y);
  }

  /**
   * getBlockAt: the block under a world pixel. The pixel is made relative to
   * the layer's position; above or left of the layer there is none;
   * otherwise it is the block of the tile holding that pixel.
   */
  function GetBlockAt(l: LayerState, px: int, py: int): (r: Option<B.Block>)
    ensures px < GetX(l) || py < GetY(l) ==> r == None
    ensures px >= GetX(l) && py >= GetY(l) ==>
      r == GetBlock(l, (px - GetX(l)) / B.TILE_SIZE, (py - GetY(l)) / B.TILE_SIZE)
  {
    var x := px - GetX(l);
    var y := py - GetY(l);
    if x < 0 || y < 0 then None else GetBlock(l, x / B.TILE_SIZE, y / B.TILE_SIZE)
  }

  /**
   * Past the layer's right or bottom pixel there is no block either: the
   * grid covers exactly [getX, getX + 16 * width) x [getY, getY + 16 * height).
   */
  lemma GetBlockAtOutside(l: LayerState, px: int, py: int)
    requires px >= GetX(l) + B.TILE_SIZE * l.width || py >= GetY(l) + B.TILE_SIZE * l.height
    ensures GetBlockAt(l, px, py) == None
  {
  }

  // The five per-pixel queries: find the block under the pixel, then ask it
  // about the pixel in the block's own coordinates.

  /** The block-local column of a world pixel column, for a block of this layer. */
  function LocalX(l: LayerState, b: B.Block, px: int): int { px - GetX(l) - B.GetX(b) }

  /** The block-local row of a world pixel row, for a block of this layer. */
  function LocalY(l: LayerState, b: B.Block, py: int): int { py - GetY(l) - B.GetY(b) }

  predicate HasBottomCollision(l: LayerState, px: int, py: int)
  {
    match GetBlockAt(l, px, py)
    case None => false
    case Some(b) => B.HasBottomCollision(b, LocalX(l, b, px), LocalY(l, b, py))
  }

  predicate HasLeftCollision(l: LayerState, px: int, py: int)
  {
    match GetBlockAt(l, px, py)
    case None => false
    case Some(b) => B.HasLeftCollision(b, LocalX(l, b, px), LocalY(l, b, py))
  }

  predicate HasRightCollision(l: LayerState, px: int, py: int)
  {
    match GetBlockAt(l, px, py)
    case None => false
    case Some(b) => B.HasRightCollision(b, LocalX(l, b, px), LocalY(l, b, py))
  }

  predicate HasSlopeCollision(l: LayerState, px: int, py: int)
  {
    match GetBlockAt(l, px, py)
    case None => false
    case Some(b) => B.HasSlopeCollision(b, LocalX(l, b, px), LocalY(l, b, py))
  }

  predicate HasTopCollision(l: LayerState, px: int, py: int)
  {
    match GetBlockAt(l, px, py)
    case None => false
    case Some(b) => B.HasTopCollision(b, LocalX(l, b, px), LocalY(l, b, py))
  }

  /**
   * Every query is false where there is no block; where there is one, it is
   * the block's own predicate at the pixel relative to the layer and then to
   * the block's pixel position.
   */
  lemma CollisionQueries(l: LayerState, px: int, py: int)
    ensures GetBlockAt(l, px, py) == None ==>
      !HasBottomCollision(l, px, py) && !HasLeftCollision(l, px, py) && !HasRightCollision(l, px, py)
      && !HasSlopeCollision(l, px, py) && !HasTopCollision(l, px, py)
    ensures GetBlockAt(l, px, py).Some? ==>
      var b := GetBlockAt(l, px, py).value;
      var x := px - GetX(l) - B.GetX(b);
      var y := py - GetY(l) - B.GetY(b);
      (HasBottomCollision(l, px, py) <==> B.HasBottomCollision(b, x, y))
      && (HasLeftCollision(l, px, py) <==> B.HasLeftCollision(b, x, y))
      && (HasRightCollision(l, px, py) <==> B.HasRightCollision(b, x, y))
      && (HasSlopeCollision(l, px, py) <==> B.HasSlopeCollision(b, x, y))
      && (HasTopCollision(l, px, py) <==> B.HasTopCollision(b, x, y))
  {
  }

  /**
   * A layer moved by whole pixels answers every query as before, at the
   * pixel moved with it.
   */
  lemma {:induction false} TranslatedQueries(l: LayerState, dx: int, dy: int, px: int, py: int)
    ensures var m := l.(positionX := l.positionX + dx * Util.UNITS_PER_PIXEL,
                        positionY := l.positionY + dy * Util.UNITS_PER_PIXEL);
      GetX(m) == GetX(l) + dx && GetY(m) == GetY(l) + dy
      && GetBlockAt(m, px + dx, py + dy) == GetBlockAt(l, px, py)
      && HasTopCollision(m, px + dx, py + dy) == HasTopCollision(l, px, py)
      && HasBottomCollision(m, px + dx, py + dy) == HasBottomCollision(l, px, py)
      && HasLeftCollision(m, px + dx, py + dy) == HasLeftCollision(l, px, py)
      && HasRightCollision(m, px + dx, py + dy) == HasRightCollision(l, px, py)
      && HasSlopeCollision(m, px + dx, py + dy) == HasSlopeCollision(l, px, py)
  {
    var m := l.(positionX := l.positionX + dx * Util.UNITS_PER_PIXEL,
                positionY := l.positionY + dy * Util.UNITS_PER_PIXEL);
    Util.DivUnique(m.positionX, Util.UNITS_PER_PIXEL, GetX(l) + dx, l.positionX % Util.UNITS_PER_PIXEL);
    Util.DivUnique(m.positionY, Util.UNITS_PER_PIXEL, GetY(l) + dy, l.positionY % Util.UNITS_PER_PIXEL);
  }

  // addBlock, as a function of the layer's value.

  /** Cell k of a width-wide grid lies in the footprint of `b` placed at tile (x, y). */
  predicate InFootprint(w: nat, x: int, y: int, b: B.Block, k: int)
  {
    w > 0 && x <= k % w < x + b.width && y <= k / w < y + b.height
  }

  /** A block as a layer stores it: with its tile position set. */
  function Placed(b: B.Block, x: int, y: int): B.Block { b.(positionX := x, positionY := y) }

  /**
   * The layer after addBlock(x, y, block): no change for no block; otherwise
   * the placed block fills every cell of its footprint that is inside the grid.
   */
  function AddedBlock(l: LayerState, x: int, y: int, block: Option<B.Block>): (r: LayerState)
    ensures r.(cells := l.cells) == l
  {
    match block
    case None => l
    case Some(b) =>
      l.(cells := seq(|l.cells|, k requires 0 <= k < |l.cells| =>
        if InFootprint(l.width, x, y, b, k) then Some(Placed(b, x, y)) else l.cells[k]))
  }

  /**
   * addBlock, cell by cell: a null block changes nothing; otherwise exactly
   * the in-grid cells of the block's footprint hold the block, placed at
   * (x, y), and every other cell keeps its content.
   */
  lemma {:induction false} AddedBlockCells(l: LayerState, x: int, y: int, block: Option<B.Block>, cx: int, cy: int)
    ensures block == None ==> AddedBlock(l, x, y, block) == l
    ensures block.Some? && x <= cx < x + block.value.width && y <= cy < y + block.value.height
            && 0 <= cx < l.width && 0 <= cy < l.height ==>
      GetBlock(AddedBlock(l, x, y, block), cx, cy) == Some(Placed(block.value, x, y))
    ensures block.Some? && !(x <= cx < x + block.value.width && y <= cy < y + block.value.height) ==>
      GetBlock(AddedBlock(l, x, y, block), cx, cy) == GetBlock(l, cx, cy)
  {
    if block.Some? && 0 <= cx < l.width && 0 <= cy < l.height {
      GetBlockInside(l, cx, cy);
      GetBlockInside(AddedBlock(l, x, y, block), cx, cy);
      IndexCompose(l.width, cx, cy);
    }
  }

  /**
   * A 1x1 block added at an in-grid tile is what getBlockAt finds at every
   * pixel of that tile.
   */
  lemma {:induction false} AddedBlockFound(l: LayerState, x: int, y: int, t: B.CollisionType, i: int, j: int)
    requires 0 <= x < l.width && 0 <= y < l.height && 0 <= i < B.TILE_SIZE && 0 <= j < B.TILE_SIZE
    ensures var m := AddedBlock(l, x, y, Some(B.NewBlock(t)));
      GetBlockAt(m, GetX(m) + B.TILE_SIZE * x + i, GetY(m) + B.TILE_SIZE * y + j)
        == Some(Placed(B.NewBlock(t), x, y))
  {
    var m := AddedBlock(l, x, y, Some(B.NewBlock(t)));
    Util.DivUnique(B.TILE_SIZE * x + i, B.TILE_SIZE, x, i);
    Util.DivUnique(B.TILE_SIZE * y + j, B.TILE_SIZE, y, j);
    AddedBlockCells(l, x, y, Some(B.NewBlock(t)), x, y);
  }

  /** The layer's cells processed so far by addBlock's two loops: rows before yIndex, then columns before xIndex. */
  predicate Done(w: nat, x: int, y: int, b: B.Block, k: int, yIndex: int, xIndex: int)
  {
    InFootprint(w, x, y, b, k) && (k / w - y < yIndex || (k / w - y == yIndex && k % w - x < xIndex))
  }

  class Layer {
    const width: nat
    const height: nat
    var positionX: int
    var positionY: int
    var velocityX: int
    var velocityY: int
    const blocks: array<Option<B.Block>>

    predicate Valid()
    {
      blocks.Length == width * height
    }

    /** The layer's value. */
    function View(): LayerState
      reads this, blocks
      requires Valid()
    {
      LayerData(width, height, positionX, positionY, velocityX, velocityY, blocks[..])
    }

    /** A new layer: width * height empty cells, at rest at the origin. */
    constructor (width: nat, height: nat)
      ensures Valid() && fresh(blocks)
      ensures View() == LayerData(width, height, 0, 0, 0, 0, seq(width * height, _ => None))
    {
      this.width := width;
      this.height := height;
      positionX, positionY, velocityX, velocityY := 0, 0, 0, 0;
      blocks := new Option<B.Block>[width * height](_ => None);
    }

    /** addBlock: stamp a block over its footprint, clipping cells outside the grid. */
    method AddBlock(x: int, y: int, block: Option<B.Block>)
      requires Valid()
      modifies blocks
      ensures Valid() && View() == AddedBlock(old(View()), x, y, block)
    {
      if block == None {
        return;
      }
      var b := Placed(block.value, x, y);
      ghost var b0 := block.value;
      var yIndex := 0;
      while yIndex < b.height
        invariant 0 <= yIndex <= b.height
        invariant forall k :: 0 <= k < blocks.Length ==>
          blocks[k] == if Done(width, x, y, b0, k, yIndex, 0) then Some(b) else old(blocks[k])
      {
        var xIndex := 0;
        while xIndex < b.width
          invariant 0 <= xIndex <= b.width
          invariant forall k :: 0 <= k < blocks.Length ==>
            blocks[k] == if Done(width, x, y, b0, k, yIndex, xIndex) then Some(b) else old(blocks[k])
        {
          var xOffset := x + xIndex;
          var yOffset := y + yIndex;
          if xOffset < 0 || xOffset >= width || yOffset < 0 || yOffset >= height {
            forall k | 0 <= k < blocks.Length
              ensures Done(width, x, y, b0, k, yIndex, xIndex + 1) == Done(width, x, y, b0, k, yIndex, xIndex)
            {
              IndexDecompose(width, height, k);
            }
          } else {
            CellIndexInRange(width, height, xOffset, yOffset);
            IndexCompose(width, xOffset, yOffset);
            forall k | 0 <= k < blocks.Length && k != yOffset * width + xOffset
              ensures Done(width, x, y, b0, k, yIndex, xIndex + 1) == Done(width, x, y, b0, k, yIndex, xIndex)
            {
              IndexDecompose(width, height, k);
            }
            blocks[yOffset * width + xOffset] := Some(b);
          }
          xIndex := xIndex + 1;
        }
        yIndex := yIndex + 1;
      }
    }

    method SetVelocityX(vx: int)
      requires Valid()
      modifies this
      ensures Valid() && View() == old(View()).(velocityX := vx)
    {
      velocityX := vx;
    }

    method SetVelocityY(vy: int)
      requires Valid()
      modifies this
      ensures Valid() && View() == old(View()).(velocityY := vy)
    {
      velocityY := vy;
    }

    method SetX(x: int)
      requires Valid()
      modifies this
      ensures Valid() && View() == old(View()).(positionX := x)
    {
      positionX := x;
    }

    method SetY(y: int)
      requires Valid()
      modifies this
      ensures Valid() && View() == old(View()).(positionY := y)
    {
      positionY := y;
    }
  }
}
