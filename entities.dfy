/**
 * A moving object of a level (source/level/Entity.cpp), and the player's
 * extra state (source/level/entities/Player.cpp).
 *
 * Position, velocity and acceleration are in units of 1/256 pixel; the
 * integer bounding box is derived from the floor of the position. The
 * entity kinds form a closed variant: `isPlayer` tells a player from a
 * plain entity, and the player's own fields (facing, air speed cap, water
 * surface flag) live in every entity, unused by plain ones.
 */
module Entities {

  import Util
  import B = Blocks
  import PC = PlayerConstants

  /** The value of an entity, everything but its level back-reference. */
  datatype EntityState = EntityState(
    width: int,     // in pixels
    height: int,    // in pixels
    positionX: int,
    positionY: int,
    velocityX: int,
    velocityY: int,
    accelerationX: int,
    accelerationY: int,
    directionSign: int,
    maxAirVelocityX: int,
    wasAtSurfaceOfWaterLastFrame: bool)

  function GetX(s: EntityState): int { Util.PixelFloor(s.positionX) }
  function GetY(s: EntityState): int { Util.PixelFloor(s.positionY) }
  function GetLeft(s: EntityState): int { GetX(s) }
  function GetTop(s: EntityState): int { GetY(s) }
  function GetRight(s: EntityState): int { GetX(s) + s.width - 1 }
  function GetBottom(s: EntityState): int { GetY(s) + s.height - 1 }
  function GetCenterX(s: EntityState): int { GetX(s) + s.width / 2 }
  function GetCenterY(s: EntityState): int { GetY(s) + s.height / 2 }

  /**
   * The bounding box: its top-left pixel is the floor of the position, it
   * spans width x height pixels (right and bottom included), and its centre
   * is half the size (rounded down) from the top-left.
   */
  lemma BoundingBox(s: EntityState)
    requires s.width >= 0 && s.height >= 0
    ensures GetX(s) * Util.UNITS_PER_PIXEL <= s.positionX < (GetX(s) + 1) * Util.UNITS_PER_PIXEL
    ensures GetY(s) * Util.UNITS_PER_PIXEL <= s.positionY < (GetY(s) + 1) * Util.UNITS_PER_PIXEL
    ensures GetLeft(s) == GetX(s) && GetTop(s) == GetY(s)
    ensures GetRight(s) - GetLeft(s) + 1 == s.width && GetBottom(s) - GetTop(s) + 1 == s.height
    ensures 2 * (GetCenterX(s) - GetLeft(s)) in {s.width, s.width - 1}
    ensures 2 * (GetCenterY(s) - GetTop(s)) in {s.height, s.height - 1}
  {
  }

  /** Moving by whole pixels moves the box by as many pixels. */
  lemma {:induction false} ShiftedBox(s: EntityState, dx: int, dy: int)
    ensures var t := s.(positionX := s.positionX + dx * Util.UNITS_PER_PIXEL,
                        positionY := s.positionY + dy * Util.UNITS_PER_PIXEL);
      GetX(t) == GetX(s) + dx && GetY(t) == GetY(s) + dy
  {
    Util.DivUnique(s.positionX + dx * Util.UNITS_PER_PIXEL, Util.UNITS_PER_PIXEL, GetX(s) + dx,
                   s.positionX % Util.UNITS_PER_PIXEL);
    Util.DivUnique(s.positionY + dy * Util.UNITS_PER_PIXEL, Util.UNITS_PER_PIXEL, GetY(s) + dy,
                   s.positionY % Util.UNITS_PER_PIXEL);
  }

  /** A new plain entity: one tile in size, at rest at the origin. */
  function NewEntity(): (s: EntityState)
    ensures s.width == B.TILE_SIZE && s.height == B.TILE_SIZE
    ensures s.positionX == s.positionY == 0 && s.velocityX == s.velocityY == 0
    ensures s.accelerationX == s.accelerationY == 0
  {
    EntityState(B.TILE_SIZE, B.TILE_SIZE, 0, 0, 0, 0, 0, 0, 0, 0, false)
  }

  /**
   * A new player: a new entity facing right, with the walking speed as its
   * air speed cap, and not at a water surface.
   */
  function NewPlayer(): (s: EntityState)
    ensures s.(directionSign := 0, maxAirVelocityX := 0) == NewEntity()
    ensures s.directionSign == 1 && s.maxAirVelocityX == PC.MAX_WALKING_SPEED == 0x180
    ensures !s.wasAtSurfaceOfWaterLastFrame
  {
    NewEntity().(directionSign := 1, maxAirVelocityX := PC.MAX_WALKING_SPEED)
  }

  class Entity {
    const isPlayer: bool
    var level: object?
    const width: int
    const height: int
    var positionX: int
    var positionY: int
    var velocityX: int
    var velocityY: int
    var accelerationX: int
    var accelerationY: int
    var directionSign: int
    var maxAirVelocityX: int
    var wasAtSurfaceOfWaterLastFrame: bool

    function State(): EntityState
      reads this
    {
      EntityState(width, height, positionX, positionY, velocityX, velocityY,
                  accelerationX, accelerationY, directionSign, maxAirVelocityX,
                  wasAtSurfaceOfWaterLastFrame)
    }

    /** A plain entity, in no level yet. */
    constructor ()
      ensures !isPlayer && level == null && State() == NewEntity()
    {
      isPlayer := false;
      level := null;
      width, height := B.TILE_SIZE, B.TILE_SIZE;
      positionX, positionY, velocityX, velocityY := 0, 0, 0, 0;
      accelerationX, accelerationY := 0, 0;
      directionSign, maxAirVelocityX, wasAtSurfaceOfWaterLastFrame := 0, 0, false;
    }

    /** A player, in no level yet. */
    constructor Player()
      ensures isPlayer && level == null && State() == NewPlayer()
    {
      isPlayer := true;
      level := null;
      width, height := B.TILE_SIZE, B.TILE_SIZE;
      positionX, positionY, velocityX, velocityY := 0, 0, 0, 0;
      accelerationX, accelerationY := 0, 0;
      directionSign, maxAirVelocityX, wasAtSurfaceOfWaterLastFrame := 1, PC.MAX_WALKING_SPEED, false;
    }

    method SetAccelerationX(ax: int)
      modifies this
      ensures State() == old(State()).(accelerationX := ax) && level == old(level)
    {
      accelerationX := ax;
    }

    method SetAccelerationY(ay: int)
      modifies this
      ensures State() == old(State()).(accelerationY := ay) && level == old(level)
    {
      accelerationY := ay;
    }

    method SetVelocityX(vx: int)
      modifies this
      ensures State() == old(State()).(velocityX := vx) && level == old(level)
    {
      velocityX := vx;
    }

    method SetVelocityY(vy: int)
      modifies this
      ensures State() == old(State()).(velocityY := vy) && level == old(level)
    {
      velocityY := vy;
    }

    method SetX(x: int)
      modifies this
      ensures State() == old(State()).(positionX := x) && level == old(level)
    {
      positionX := x;
    }

    method SetY(y: int)
      modifies this
      ensures State() == old(State()).(positionY := y) && level == old(level)
    {
      positionY := y;
    }
  }
}
