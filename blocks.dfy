/**
 * A tiled piece of terrain (source/level/Block.cpp).
 *
 * A block is a value: its collision type, its tile position inside a layer
 * and its size in tiles. Its collision predicates take a pixel in
 * block-local coordinates, with (0, 0) the block's top-left pixel.
 */
module Blocks {

  import Util

  /** Size of one tile, in pixels. */
  const TILE_SIZE: int := 16

  /** Collision mask templates. */
  datatype CollisionType = NoCollision | Platform | SlopeLeft | SlopeRight | Solid | Water

  /** A block's extent along one axis, in tiles. */
  type TileSpan = n: int | n >= 1 witness 1

  datatype Block = Block(
    collisionType: CollisionType,
    positionX: int,     // tile position within its layer
    positionY: int,
    width: TileSpan,    // in tiles
    height: TileSpan)

  /**
   * A new block is one tile in each direction. Its tile position is only
   * set when a layer stores it; the model starts it at (0, 0).
   */
  function NewBlock(t: CollisionType): (b: Block)
    ensures b.collisionType == t
    ensures GetWidth(b) == TILE_SIZE && GetHeight(b) == TILE_SIZE
  {
    Block(t, 0, 0, 1, 1)
  }

  function GetX(b: Block): int { b.positionX * TILE_SIZE }
  function GetY(b: Block): int { b.positionY * TILE_SIZE }
  function GetWidth(b: Block): int { b.width * TILE_SIZE }
  function GetHeight(b: Block): int { b.height * TILE_SIZE }
  function GetLeft(b: Block): int { GetX(b) }
  function GetTop(b: Block): int { GetY(b) }
  function GetRight(b: Block): int { GetX(b) + GetWidth(b) - 1 }
  function GetBottom(b: Block): int { GetY(b) + GetHeight(b) - 1 }

  /**
   * The pixel box of a block: it starts at its tile position times the tile
   * size, and spans a whole number of tiles (at least one) in each axis,
   * its right and bottom pixels included.
   */
  lemma Geometry(b: Block)
    ensures GetLeft(b) == GetX(b) == b.positionX * TILE_SIZE
    ensures GetTop(b) == GetY(b) == b.positionY * TILE_SIZE
    ensures GetRight(b) - GetLeft(b) + 1 == GetWidth(b) >= TILE_SIZE
    ensures GetBottom(b) - GetTop(b) + 1 == GetHeight(b) >= TILE_SIZE
    ensures GetWidth(b) % TILE_SIZE == 0 && GetHeight(b) % TILE_SIZE == 0
  {
  }

  /** setWidth: the size in tiles along x. */
  function SetWidth(b: Block, w: TileSpan): (r: Block)
    ensures GetWidth(r) == w * TILE_SIZE && GetHeight(r) == GetHeight(b)
    ensures r.collisionType == b.collisionType && GetX(r) == GetX(b) && GetY(r) == GetY(b)
  {
    b.(width := w)
  }

  /** setHeight: the size in tiles along y. */
  function SetHeight(b: Block, h: TileSpan): (r: Block)
    ensures GetHeight(r) == h * TILE_SIZE && GetWidth(r) == GetWidth(b)
    ensures r.collisionType == b.collisionType && GetX(r) == GetX(b) && GetY(r) == GetY(b)
  {
    b.(height := h)
  }

  predicate HasBottomCollision(b: Block, x: int, y: int)
  {
    b.collisionType == Solid && y == GetHeight(b) - 1
  }

  predicate HasLeftCollision(b: Block, x: int, y: int)
  {
    b.collisionType == Solid && x == 0
  }

  predicate HasRightCollision(b: Block, x: int, y: int)
  {
    b.collisionType == Solid && x == GetWidth(b) - 1
  }

  predicate HasTopCollision(b: Block, x: int, y: int)
  {
    match b.collisionType
    case Platform => y == 0
    case Solid => y == 0
    case _ => false
  }

  /**
   * The pixel row of a left slope in column x: floor((height / width) * (x + 1/2)),
   * computed exactly as floor(height * (2x + 1) / (2 * width)).
   */
  function SlopeLeftRow(b: Block, x: int): int
  {
    (b.height * (2 * x + 1)) / (2 * b.width)
  }

  /**
   * The pixel row of a right slope in column x:
   * floor(-(height / width) * (x + 1/2) + height * TILE_SIZE), computed exactly.
   */
  function SlopeRightRow(b: Block, x: int): int
  {
    (2 * TILE_SIZE * b.height * b.width - b.height * (2 * x + 1)) / (2 * b.width)
  }

  predicate HasSlopeCollision(b: Block, x: int, y: int)
  {
    match b.collisionType
    case SlopeLeft => y == SlopeLeftRow(b, x)
    case SlopeRight => y == SlopeRightRow(b, x)
    case _ => false
  }

  /**
   * The edge predicates: left and right depend on the column only, top and
   * bottom on the row only; only solid blocks have left, right and bottom
   * edges, and platforms share their top edge.
   */
  lemma EdgeCollisions(b: Block, x: int, y: int, x2: int, y2: int)
    ensures HasLeftCollision(b, x, y) <==> b.collisionType == Solid && x == 0
    ensures HasRightCollision(b, x, y) <==> b.collisionType == Solid && x == GetWidth(b) - 1
    ensures HasBottomCollision(b, x, y) <==> b.collisionType == Solid && y == GetHeight(b) - 1
    ensures HasTopCollision(b, x, y) <==> (b.collisionType == Solid || b.collisionType == Platform) && y == 0
    ensures HasLeftCollision(b, x, y) == HasLeftCollision(b, x, y2)
    ensures HasRightCollision(b, x, y) == HasRightCollision(b, x, y2)
    ensures HasTopCollision(b, x, y) == HasTopCollision(b, x2, y)
    ensures HasBottomCollision(b, x, y) == HasBottomCollision(b, x2, y)
  {
  }

  /** Empty and water blocks collide nowhere; a platform only from the top. */
  lemma PassableBlocks(b: Block, x: int, y: int)
    ensures b.collisionType == NoCollision || b.collisionType == Water ==>
      !HasLeftCollision(b, x, y) && !HasRightCollision(b, x, y) && !HasTopCollision(b, x, y)
      && !HasBottomCollision(b, x, y) && !HasSlopeCollision(b, x, y)
    ensures b.collisionType == Platform ==>
      HasTopCollision(b, x, y) == (y == 0) && !HasLeftCollision(b, x, y) && !HasRightCollision(b, x, y)
      && !HasBottomCollision(b, x, y) && !HasSlopeCollision(b, x, y)
    ensures HasSlopeCollision(b, x, y) ==> b.collisionType == SlopeLeft || b.collisionType == SlopeRight
  {
  }

  /**
   * On a square block the slopes are the two diagonals: a left slope
   * collides on y == x, a right slope on y == width - 1 - x (in pixels).
   */
  lemma {:induction false} SquareSlope(b: Block, x: int, y: int)
    requires b.width == b.height
    ensures b.collisionType == SlopeLeft ==> (HasSlopeCollision(b, x, y) <==> y == x)
    ensures b.collisionType == SlopeRight ==> (HasSlopeCollision(b, x, y) <==> y == GetWidth(b) - 1 - x)
  {
    var n := b.width;
    Util.DivUnique(n * (2 * x + 1), 2 * n, x, n);
    assert SlopeLeftRow(b, x) == x;
    var top := TILE_SIZE * n - x - 1;
    assert 2 * TILE_SIZE * n * n - n * (2 * x + 1) == top * (2 * n) + n;
    Util.DivUnique(2 * TILE_SIZE * n * n - n * (2 * x + 1), 2 * n, top, n);
    assert SlopeRightRow(b, x) == top;
  }

  /** In every column a block's slope surface is a single pixel. */
  lemma SlopeSinglePixel(b: Block, x: int, y1: int, y2: int)
    requires HasSlopeCollision(b, x, y1) && HasSlopeCollision(b, x, y2)
    ensures y1 == y2
  {
  }

  /** Every column of a sloped block has its surface pixel. */
  lemma SlopeSurfaceExists(b: Block, x: int)
    requires b.collisionType == SlopeLeft || b.collisionType == SlopeRight
    ensures exists y :: HasSlopeCollision(b, x, y)
  {
    if b.collisionType == SlopeLeft {
      assert HasSlopeCollision(b, x, SlopeLeftRow(b, x));
    } else {
      assert HasSlopeCollision(b, x, SlopeRightRow(b, x));
    }
  }

  /** A 1x1 left slope is highest (row 0) in its left column, a right slope in its right column. */
  lemma UnitSlopeEnds()
    ensures HasSlopeCollision(NewBlock(SlopeLeft), 0, 0)
    ensures HasSlopeCollision(NewBlock(SlopeLeft), 15, 15)
    ensures HasSlopeCollision(NewBlock(SlopeRight), 0, 15)
    ensures HasSlopeCollision(NewBlock(SlopeRight), 15, 0)
  {
  }
}
