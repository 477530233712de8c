/**
 * The level (source/level/Level.cpp): the layers and entities of one game
 * level, the queries that check an entity against every layer, and the
 * step-by-step movement of entities and layers.
 *
 * Each method runs the source's loops on the objects and is proved to
 * compute the matching function of the Collision module on the layers'
 * values (`Views()`) and the entities' values (`State()`). Entities only
 * ever test themselves against layers, never against each other, so what a
 * method does to one entity depends only on the layers and that entity.
 */
module Levels {

  import Util
  import opened Entities
  import L = Layers
  import B = Blocks
  import C = Collision
  import P = Players
  import Input

  const PIXEL: int := C.PIXEL

  /** The values of a list of layers, in order. */
  function ViewsOf(ls: seq<L.Layer>): (vs: seq<L.LayerState>)
    requires forall i :: 0 <= i < |ls| ==> ls[i].Valid()
    reads ls, set l | l in ls :: l.blocks
    ensures |vs| == |ls|
    ensures forall i :: 0 <= i < |ls| ==> vs[i] == ls[i].View()
  {
    if ls == [] then [] else [ls[0].View()] + ViewsOf(ls[1..])
  }

  /**
   * One entity's frame within Level::update once the layers have moved:
   * updateEntity adds the x acceleration to the x velocity and integrates
   * it, then does the same for y, then runs the entity's onUpdate, which
   * does nothing for a plain entity and runs the player physics for a player.
   */
  function EntityFrame(ls: seq<L.LayerState>, held: set<Input.Button>, isPlayer: bool, s: EntityState): EntityState
  {
    var s2 := EntityMotion(ls, s);
    if isPlayer then P.PlayerUpdate(ls, held, s2) else s2
  }

  /** The motion part of updateEntity: accelerate and move on x, then on y. */
  function EntityMotion(ls: seq<L.LayerState>, s: EntityState): EntityState
  {
    var s1 := C.MotionX(ls, s.(velocityX := s.velocityX + s.accelerationX));
    C.MotionY(ls, s1.(velocityY := s1.velocityY + s1.accelerationY))
  }

  /** One entity through a whole Level::update: first every layer's motion, then its own update. */
  function LevelFrame(ls: seq<L.LayerState>, held: set<Input.Button>, isPlayer: bool, s: EntityState): EntityState
  {
    EntityFrame(C.MovedLayers(ls), held, isPlayer, C.LayersFrom(ls, 0, s).1)
  }

  /**
   * A plain entity's frame keeps its size and accelerations; its velocity
   * on each axis becomes velocity plus acceleration, or 0 when a step on
   * that axis was blocked. An entity at rest with no acceleration stays
   * exactly where it is.
   */
  lemma PlainEntityFrame(ls: seq<L.LayerState>, held: set<Input.Button>, s: EntityState)
    ensures var r := EntityFrame(ls, held, false, s);
      r.width == s.width && r.height == s.height
      && r.accelerationX == s.accelerationX && r.accelerationY == s.accelerationY
      && (r.velocityX == s.velocityX + s.accelerationX || r.velocityX == 0)
      && (r.velocityY == s.velocityY + s.accelerationY || r.velocityY == 0)
      && (s.velocityX + s.accelerationX == 0 && s.velocityY + s.accelerationY == 0 ==>
            r == s.(velocityX := 0, velocityY := 0))
  {
    var s0 := s.(velocityX := s.velocityX + s.accelerationX);
    C.MotionXVelocity(ls, s0);
    var s1 := C.MotionX(ls, s0);
    C.MotionYVelocity(ls, s1.(velocityY := s1.velocityY + s1.accelerationY));
  }

  /**
   * The player's frame moves it exactly as a plain entity would: the player
   * physics runs after both motions and only sets velocities and
   * accelerations for the next frame.
   */
  lemma PlayerFrameMovesAsPlain(ls: seq<L.LayerState>, held: set<Input.Button>, s: EntityState)
    ensures C.SamePlace(EntityFrame(ls, held, true, s), EntityFrame(ls, held, false, s))
  {
    var s0 := s.(velocityX := s.velocityX + s.accelerationX);
    var s1 := C.MotionX(ls, s0);
    var s2 := C.MotionY(ls, s1.(velocityY := s1.velocityY + s1.accelerationY));
    P.PhysicsKeepsPlace(held, P.Sense(ls, s2), s2);
  }

  /** Which of a list of entities are players. */
  function PlayerFlags(es: seq<Entity>): (r: seq<bool>)
    ensures |r| == |es| && forall j :: 0 <= j < |es| ==> r[j] == es[j].isPlayer
  {
    if es == [] then [] else [es[0].isPlayer] + PlayerFlags(es[1..])
  }

  /** The entity pass of Level::update on the values of the entities. */
  function EntityFrames(ls: seq<L.LayerState>, held: set<Input.Button>, players: seq<bool>, ss: seq<EntityState>): (r: seq<EntityState>)
    requires |players| == |ss|
    ensures |r| == |ss| && forall j :: 0 <= j < |ss| ==> r[j] == EntityFrame(ls, held, players[j], ss[j])
  {
    seq(|ss|, j requires 0 <= j < |ss| => EntityFrame(ls, held, players[j], ss[j]))
  }

  /** Level::update on the values of the entities: each entity's frame, as if it were alone. */
  function LevelFrames(ls: seq<L.LayerState>, held: set<Input.Button>, players: seq<bool>, ss: seq<EntityState>): (r: seq<EntityState>)
    requires |players| == |ss|
    ensures |r| == |ss| && forall k :: 0 <= k < |ss| ==> r[k] == LevelFrame(ls, held, players[k], ss[k])
  {
    seq(|ss|, k requires 0 <= k < |ss| => LevelFrame(ls, held, players[k], ss[k]))
  }

  /**
   * The two passes of Level::update compose to the one-entity model: the
   * layer pass moves every layer by its velocity, and the entity pass in the
   * moved level then leaves each entity as its own frame says.
   */
  lemma LevelPasses(ls: seq<L.LayerState>, held: set<Input.Button>, players: seq<bool>, ss: seq<EntityState>)
    requires |players| == |ss|
    ensures var u := C.LevelLayersFrom(ls, 0, ss);
      u.0 == C.MovedLayers(ls) && |u.1| == |ss|
      && EntityFrames(u.0, held, players, u.1) == LevelFrames(ls, held, players, ss)
  {
    C.LevelLayersFromEach(ls, 0, ss);
    C.LayersMoveByVelocity(ls, NewEntity());
  }

  class Level {
    var layers: seq<L.Layer>
    var entities: seq<Entity>

    /** Every layer is well formed and appears once. */
    predicate LayersValid()
      reads this
    {
      (forall i :: 0 <= i < |layers| ==> layers[i].Valid())
      && (forall i, j :: 0 <= i < |layers| && 0 <= j < |layers| && i != j ==> layers[i] != layers[j])
    }

    /**
     * The level owns its layers and entities (it deletes each of them once),
     * so each appears once, and every entity's level is this one.
     */
    predicate Valid()
      reads this, entities
    {
      LayersValid()
      && (forall i, j :: 0 <= i < |entities| && 0 <= j < |entities| && i != j ==> entities[i] != entities[j])
      && (forall i :: 0 <= i < |entities| ==> entities[i].level == this)
    }

    /** The values of the level's layers. */
    function Views(): seq<L.LayerState>
      reads this, layers, set l | l in layers :: l.blocks
      requires LayersValid()
    {
      ViewsOf(layers)
    }

    /** The values of the level's entities. */
    function States(): (r: seq<EntityState>)
      reads this, entities
      ensures |r| == |entities| && forall k :: 0 <= k < |entities| ==> r[k] == entities[k].State()
    {
      seq(|entities|, k reads this, entities requires 0 <= k < |entities| => entities[k].State())
    }

    /** A new level has no layers and no entities. */
    constructor ()
      ensures Valid() && layers == [] && entities == []
    {
      layers, entities := [], [];
    }

    /** addEntity: append the entity and point its level at this one. */
    method AddEntity(entity: Entity)
      requires Valid() && entity !in entities
      modifies this, entity
      ensures Valid() && layers == old(layers) && entities == old(entities) + [entity]
      ensures entity.level == this && entity.State() == old(entity.State())
    {
      entity.level := this;
      entities := entities + [entity];
    }

    /** addLayer: append the layer. */
    method AddLayer(layer: L.Layer)
      requires Valid() && layer.Valid() && layer !in layers
      modifies this
      ensures Valid() && entities == old(entities) && layers == old(layers) + [layer]
      ensures Views() == old(Views()) + [layer.View()]
    {
      layers := layers + [layer];
    }

    // Queries.

    /** canEntityMoveDown: no layer has a slope below the centre or a top edge below the entity. */
    method CanEntityMoveDown(entity: Entity) returns (b: bool)
      requires LayersValid()
      ensures b == C.CanMoveDown(Views(), entity.State())
    {
      ghost var views := Views();
      var s := entity.State();
      var i := 0;
      while i < |layers|
        invariant 0 <= i <= |layers|
        invariant forall j :: 0 <= j < i ==> !C.BlocksDown(views[j], s)
      {
        var layer := layers[i];
        if L.HasSlopeCollision(layer.View(), GetCenterX(s), GetBottom(s) + 1) {
          assert C.BlocksDown(views[i], s);
          return false;
        }
        var x := 0;
        while x < entity.width
          invariant 0 <= x
          invariant forall xx :: 0 <= xx < x ==> !C.DownProbe(views[i], s, xx)
        {
          if L.HasTopCollision(layer.View(), GetLeft(s) + x, GetBottom(s) + 1) {
            assert C.DownProbe(views[i], s, x);
            return false;
          }
          x := x + 1;
        }
        i := i + 1;
      }
      return true;
    }

    /** canEntityMoveLeft: no layer has a right edge just left of any row of the entity. */
    method CanEntityMoveLeft(entity: Entity) returns (b: bool)
      requires LayersValid()
      ensures b == C.CanMoveLeft(Views(), entity.State())
    {
      ghost var views := Views();
      var s := entity.State();
      var i := 0;
      while i < |layers|
        invariant 0 <= i <= |layers|
        invariant forall j :: 0 <= j < i ==> !C.BlocksLeft(views[j], s)
      {
        var layer := layers[i];
        var y := 0;
        while y < entity.height
          invariant 0 <= y
          invariant forall yy :: 0 <= yy < y ==> !C.LeftProbe(views[i], s, yy)
        {
          if L.HasRightCollision(layer.View(), GetLeft(s) - 1, GetTop(s) + y) {
            assert C.LeftProbe(views[i], s, y);
            return false;
          }
          y := y + 1;
        }
        i := i + 1;
      }
      return true;
    }

    /** canEntityMoveRight: no layer has a left edge just right of any row of the entity. */
    method CanEntityMoveRight(entity: Entity) returns (b: bool)
      requires LayersValid()
      ensures b == C.CanMoveRight(Views(), entity.State())
    {
      ghost var views := Views();
      var s := entity.State();
      var i := 0;
      while i < |layers|
        invariant 0 <= i <= |layers|
        invariant forall j :: 0 <= j < i ==> !C.BlocksRight(views[j], s)
      {
        var layer := layers[i];
        var y := 0;
        while y < entity.height
          invariant 0 <= y
          invariant forall yy :: 0 <= yy < y ==> !C.RightProbe(views[i], s, yy)
        {
          if L.HasLeftCollision(layer.View(), GetRight(s) + 1, GetTop(s) + y) {
            assert C.RightProbe(views[i], s, y);
            return false;
          }
          y := y + 1;
        }
        i := i + 1;
      }
      return true;
    }

    /** canEntityMoveUp: no layer has a bottom edge just above any column of the entity. */
    method CanEntityMoveUp(entity: Entity) returns (b: bool)
      requires LayersValid()
      ensures b == C.CanMoveUp(Views(), entity.State())
    {
      ghost var views := Views();
      var s := entity.State();
      var i := 0;
      while i < |layers|
        invariant 0 <= i <= |layers|
        invariant forall j :: 0 <= j < i ==> !C.BlocksUp(views[j], s)
      {
        var layer := layers[i];
        var x := 0;
        while x < entity.width
          invariant 0 <= x
          invariant forall xx :: 0 <= xx < x ==> !C.UpProbe(views[i], s, xx)
        {
          if L.HasBottomCollision(layer.View(), GetLeft(s) + x, GetTop(s) - 1) {
            assert C.UpProbe(views[i], s, x);
            return false;
          }
          x := x + 1;
        }
        i := i + 1;
      }
      return true;
    }

    /** isEntityStandingOnLayer: a slope below the centre, or a top edge below some column. */
    method IsEntityStandingOnLayer(layer: L.Layer, entity: Entity) returns (b: bool)
      requires layer.Valid()
      ensures b == C.StandingOn(layer.View(), entity.State())
    {
      var s := entity.State();
      if L.HasSlopeCollision(layer.View(), GetCenterX(s), GetBottom(s) + 1) {
        return true;
      }
      var x := 0;
      while x < entity.width
        invariant 0 <= x
        invariant forall xx :: 0 <= xx < x ==> !C.DownProbe(layer.View(), s, xx)
      {
        if L.HasTopCollision(layer.View(), GetLeft(s) + x, GetBottom(s) + 1) {
          assert C.DownProbe(layer.View(), s, x);
          return true;
        }
        x := x + 1;
      }
      return false;
    }

    /** isEntityOnGround: standing on some layer. */
    method IsEntityOnGround(entity: Entity) returns (b: bool)
      requires LayersValid()
      ensures b == C.OnGround(Views(), entity.State())
    {
      ghost var views := Views();
      var i := 0;
      while i < |layers|
        invariant 0 <= i <= |layers|
        invariant forall j :: 0 <= j < i ==> !C.StandingOn(views[j], entity.State())
      {
        var standing := IsEntityStandingOnLayer(layers[i], entity);
        if standing {
          return true;
        }
        i := i + 1;
      }
      return false;
    }

    /** isUnderwaterAt: some layer has a water block at the pixel. */
    method IsUnderwaterAt(x: int, y: int) returns (b: bool)
      requires LayersValid()
      ensures b == C.UnderwaterAt(Views(), x, y)
    {
      ghost var views := Views();
      var i := 0;
      while i < |layers|
        invariant 0 <= i <= |layers|
        invariant forall j :: 0 <= j < i ==> !C.IsWater(L.GetBlockAt(views[j], x, y))
      {
        var block := L.GetBlockAt(layers[i].View(), x, y);
        if block.Some? && block.value.collisionType == B.Water {
          assert C.IsWater(L.GetBlockAt(views[i], x, y));
          return true;
        }
        i := i + 1;
      }
      return false;
    }

    /** Entity::isOnGround: ask the entity's level. */
    method EntityIsOnGround(entity: Entity) returns (b: bool)
      requires LayersValid() && entity.level == this
      ensures b == C.OnGround(Views(), entity.State())
    {
      b := IsEntityOnGround(entity);
    }

    /** Entity::isUnderwater: ask the entity's level about its centre pixel. */
    method EntityIsUnderwater(entity: Entity) returns (b: bool)
      requires LayersValid() && entity.level == this
      ensures b == C.Underwater(Views(), entity.State())
    {
      b := IsUnderwaterAt(GetCenterX(entity.State()), GetCenterY(entity.State()));
    }

    // Moving entities.

    /** The plain x shift moveEntityX ends with: move by dx, with no checks. */
    method MoveEntityXBy(entity: Entity, dx: int)
      requires LayersValid()
      modifies entity
      ensures entity.State() == C.ShiftX(old(entity.State()), dx) && entity.level == old(entity.level)
      ensures LayersValid() && Views() == old(Views())
    {
      entity.positionX := entity.positionX + dx;
    }

    /** moveEntityY: move by dy, with no checks. */
    method MoveEntityY(entity: Entity, dy: int)
      requires LayersValid()
      modifies entity
      ensures entity.State() == C.ShiftY(old(entity.State()), dy) && entity.level == old(entity.level)
      ensures LayersValid() && Views() == old(Views())
    {
      entity.positionY := entity.positionY + dy;
    }

    /** Stop the entity horizontally. */
    method StopEntityX(entity: Entity)
      requires LayersValid()
      modifies entity
      ensures entity.State() == old(entity.State()).(velocityX := 0) && entity.level == old(entity.level)
      ensures LayersValid() && Views() == old(Views())
    {
      entity.velocityX := 0;
    }

    /** Stop the entity vertically. */
    method StopEntityY(entity: Entity)
      requires LayersValid()
      modifies entity
      ensures entity.State() == old(entity.State()).(velocityY := 0) && entity.level == old(entity.level)
      ensures LayersValid() && Views() == old(Views())
    {
      entity.velocityY := 0;
    }

    /** The slope test of moveEntityX on one layer. */
    method SlopeOfLayer(layer: L.Layer, entity: Entity, newCenterX: int) returns (slope: C.Slope)
      requires layer.Valid()
      ensures slope == C.SlopeAt(layer.View(), entity.State(), newCenterX)
    {
      var standing := IsEntityStandingOnLayer(layer, entity);
      var bottom := GetBottom(entity.State());
      if standing && L.HasSlopeCollision(layer.View(), newCenterX, bottom) {
        slope := C.Climb;
      } else if standing && L.HasSlopeCollision(layer.View(), newCenterX, bottom + 2) {
        slope := C.Sink;
      } else {
        slope := C.Flat;
      }
    }

    /** The slope pass of moveEntityX, over the layers in order. */
    method SlopeAhead(entity: Entity, newCenterX: int) returns (slope: C.Slope)
      requires LayersValid()
      ensures slope == C.SlopeScan(Views(), entity.State(), newCenterX, 0)
    {
      ghost var views := Views();
      ghost var goal := C.SlopeScan(views, entity.State(), newCenterX, 0);
      var i := 0;
      slope := C.Flat;
      while i < |layers| && slope == C.Flat
        invariant 0 <= i <= |layers|
        invariant slope == C.Flat ==> C.SlopeScan(views, entity.State(), newCenterX, i) == goal
        invariant slope != C.Flat ==> slope == goal
        decreases |layers| - i, if slope == C.Flat then 1 else 0
      {
        slope := SlopeOfLayer(layers[i], entity, newCenterX);
        if slope == C.Flat {
          i := i + 1;
        }
      }
    }

    /** moveEntityX: move by dx, climbing or sinking one pixel on a slope of a layer stood on. */
    method MoveEntityX(entity: Entity, dx: int)
      requires LayersValid()
      modifies entity
      ensures entity.State() == C.MoveX(Views(), old(entity.State()), dx)
      ensures entity.level == old(entity.level)
      ensures LayersValid() && Views() == old(Views())
    {
      var newCenterX;
      if dx > 0 {
        newCenterX := GetCenterX(entity.State()) + 1;
      } else {
        newCenterX := GetCenterX(entity.State()) - 1;
      }
      ghost var views := Views();
      ghost var s0 := entity.State();
      var slope := SlopeAhead(entity, newCenterX);
      assert newCenterX == C.NextCenterX(s0, dx);
      MoveEntityXBy(entity, dx);
      C.MoveXCases(views, s0, dx, slope, entity.State());
      if slope == C.Climb {
        var moved := MoveEntityUp(entity);
      } else if slope == C.Sink {
        MoveEntityY(entity, PIXEL);
      }
    }

    /** moveEntityDown: one pixel down when free; reports whether it moved. */
    method MoveEntityDown(entity: Entity) returns (moved: bool)
      requires LayersValid()
      modifies entity
      ensures var st := C.MoveDownStep(Views(), old(entity.State()));
        moved == st.moved && entity.State() == st.entity
      ensures entity.level == old(entity.level)
      ensures LayersValid() && Views() == old(Views())
    {
      moved := CanEntityMoveDown(entity);
      if moved {
        MoveEntityY(entity, PIXEL);
      }
    }

    /** moveEntityUp: one pixel up when free; reports whether it moved. */
    method MoveEntityUp(entity: Entity) returns (moved: bool)
      requires LayersValid()
      modifies entity
      ensures var st := C.MoveUpStep(Views(), old(entity.State()));
        moved == st.moved && entity.State() == st.entity
      ensures entity.level == old(entity.level)
      ensures LayersValid() && Views() == old(Views())
    {
      moved := CanEntityMoveUp(entity);
      if moved {
        MoveEntityY(entity, -PIXEL);
      }
    }

    /** moveEntityLeft: one pixel left (following slopes) when free; reports whether it moved. */
    method MoveEntityLeft(entity: Entity) returns (moved: bool)
      requires LayersValid()
      modifies entity
      ensures var st := C.MoveLeftStep(Views(), old(entity.State()));
        moved == st.moved && entity.State() == st.entity
      ensures entity.level == old(entity.level)
      ensures LayersValid() && Views() == old(Views())
    {
      moved := CanEntityMoveLeft(entity);
      if moved {
        MoveEntityX(entity, -PIXEL);
      }
    }

    /** moveEntityRight: one pixel right (following slopes) when free; reports whether it moved. */
    method MoveEntityRight(entity: Entity) returns (moved: bool)
      requires LayersValid()
      modifies entity
      ensures var st := C.MoveRightStep(Views(), old(entity.State()));
        moved == st.moved && entity.State() == st.entity
      ensures entity.level == old(entity.level)
      ensures LayersValid() && Views() == old(Views())
    {
      moved := CanEntityMoveRight(entity);
      if moved {
        MoveEntityX(entity, PIXEL);
      }
    }

    /**
     * The whole-pixel part of updateEntityMotionX to the right: one pixel at
     * a time while at least a pixel remains; a blocked pixel stops the entity.
     */
    method MoveRightPixels(entity: Entity, dx0: int) returns (dx: int, blocked: bool)
      requires LayersValid() && dx0 >= 0
      modifies entity
      ensures entity.level == old(entity.level)
      ensures blocked ==> entity.State() == C.IntegrateX(Views(), old(entity.State()), dx0)
      ensures !blocked ==> (0 <= dx < PIXEL
        && C.IntegrateX(Views(), entity.State(), dx) == C.IntegrateX(Views(), old(entity.State()), dx0))
      ensures LayersValid() && Views() == old(Views())
    {
      ghost var views := Views();
      ghost var goal := C.IntegrateX(views, entity.State(), dx0);
      dx, blocked := dx0, false;
      while dx >= PIXEL
        invariant dx >= 0 && Views() == views
        invariant C.IntegrateX(views, entity.State(), dx) == goal
        invariant entity.level == old(entity.level)
      {
        ghost var s := entity.State();
        var moved := MoveEntityRight(entity);
        if moved {
          dx := dx - PIXEL;
        } else {
          StopEntityX(entity);
          blocked := true;
          assert entity.State() == C.IntegrateX(views, s, dx);
          return;
        }
      }
    }

    /** The whole-pixel part of updateEntityMotionX to the left. */
    method MoveLeftPixels(entity: Entity, dx0: int) returns (dx: int, blocked: bool)
      requires LayersValid() && dx0 <= 0
      modifies entity
      ensures entity.level == old(entity.level)
      ensures blocked ==> entity.State() == C.IntegrateX(Views(), old(entity.State()), dx0)
      ensures !blocked ==> (-PIXEL < dx <= 0
        && C.IntegrateX(Views(), entity.State(), dx) == C.IntegrateX(Views(), old(entity.State()), dx0))
      ensures LayersValid() && Views() == old(Views())
    {
      ghost var views := Views();
      ghost var goal := C.IntegrateX(views, entity.State(), dx0);
      dx, blocked := dx0, false;
      while dx <= -PIXEL
        invariant dx <= 0 && Views() == views
        invariant C.IntegrateX(views, entity.State(), dx) == goal
        invariant entity.level == old(entity.level)
      {
        ghost var s := entity.State();
        var moved := MoveEntityLeft(entity);
        if moved {
          dx := dx + PIXEL;
        } else {
          StopEntityX(entity);
          blocked := true;
          assert entity.State() == C.IntegrateX(views, s, dx);
          return;
        }
      }
    }

    /**
     * The fractional rest of updateEntityMotionX to the right: a rest that
     * crosses into the next pixel column needs that column free.
     */
    method MoveRightRemainder(entity: Entity, dx: int)
      requires LayersValid() && 0 < dx < PIXEL
      modifies entity
      ensures entity.State() == C.RestX(Views(), old(entity.State()), dx)
      ensures entity.level == old(entity.level)
      ensures LayersValid() && Views() == old(Views())
    {
      ghost var s := entity.State();
      if Util.PixelFloor(entity.positionX + dx) == Util.PixelFloor(entity.positionX + PIXEL) {
        var free := CanEntityMoveRight(entity);
        if free {
          MoveEntityX(entity, dx);
        } else {
          StopEntityX(entity);
        }
      } else {
        MoveEntityXBy(entity, dx);
      }
      assert entity.State() == C.RestX(Views(), s, dx);
    }

    /** The fractional rest of updateEntityMotionX to the left. */
    method MoveLeftRemainder(entity: Entity, dx: int)
      requires LayersValid() && -PIXEL < dx < 0
      modifies entity
      ensures entity.State() == C.RestX(Views(), old(entity.State()), dx)
      ensures entity.level == old(entity.level)
      ensures LayersValid() && Views() == old(Views())
    {
      ghost var s := entity.State();
      if Util.PixelFloor(entity.positionX + dx) == Util.PixelFloor(entity.positionX - PIXEL) {
        var free := CanEntityMoveLeft(entity);
        if free {
          MoveEntityX(entity, dx);
        } else {
          StopEntityX(entity);
        }
      } else {
        MoveEntityXBy(entity, dx);
      }
      assert entity.State() == C.RestX(Views(), s, dx);
    }

    /**
     * updateEntityMotionX: integrate the x velocity, whole pixels first and
     * then the fractional rest (only one of the two directions applies).
     */
    method UpdateEntityMotionX(entity: Entity)
      requires LayersValid()
      modifies entity
      ensures entity.State() == C.MotionX(Views(), old(entity.State())) && entity.level == old(entity.level)
      ensures LayersValid() && Views() == old(Views())
    {
      var dx := entity.velocityX;
      var blocked;
      if dx >= 0 {
        dx, blocked := MoveRightPixels(entity, dx);
        if !blocked && dx > 0 {
          MoveRightRemainder(entity, dx);
        }
      } else {
        dx, blocked := MoveLeftPixels(entity, dx);
        if !blocked && dx < 0 {
          MoveLeftRemainder(entity, dx);
        }
      }
    }

    /** The whole-pixel part of updateEntityMotionY downwards. */
    method MoveDownPixels(entity: Entity, dy0: int) returns (dy: int, blocked: bool)
      requires LayersValid() && dy0 >= 0
      modifies entity
      ensures entity.level == old(entity.level)
      ensures blocked ==> entity.State() == C.IntegrateY(Views(), old(entity.State()), dy0)
      ensures !blocked ==> (0 <= dy < PIXEL
        && C.IntegrateY(Views(), entity.State(), dy) == C.IntegrateY(Views(), old(entity.State()), dy0))
      ensures LayersValid() && Views() == old(Views())
    {
      ghost var views := Views();
      ghost var goal := C.IntegrateY(views, entity.State(), dy0);
      dy, blocked := dy0, false;
      while dy >= PIXEL
        invariant dy >= 0 && Views() == views
        invariant C.IntegrateY(views, entity.State(), dy) == goal
        invariant entity.level == old(entity.level)
      {
        ghost var s := entity.State();
        var moved := MoveEntityDown(entity);
        if moved {
          dy := dy - PIXEL;
        } else {
          StopEntityY(entity);
          blocked := true;
          assert entity.State() == C.IntegrateY(views, s, dy);
          return;
        }
      }
    }

    /** The whole-pixel part of updateEntityMotionY upwards. */
    method MoveUpPixels(entity: Entity, dy0: int) returns (dy: int, blocked: bool)
      requires LayersValid() && dy0 <= 0
      modifies entity
      ensures entity.level == old(entity.level)
      ensures blocked ==> entity.State() == C.IntegrateY(Views(), old(entity.State()), dy0)
      ensures !blocked ==> (-PIXEL < dy <= 0
        && C.IntegrateY(Views(), entity.State(), dy) == C.IntegrateY(Views(), old(entity.State()), dy0))
      ensures LayersValid() && Views() == old(Views())
    {
      ghost var views := Views();
      ghost var goal := C.IntegrateY(views, entity.State(), dy0);
      dy, blocked := dy0, false;
      while dy <= -PIXEL
        invariant dy <= 0 && Views() == views
        invariant C.IntegrateY(views, entity.State(), dy) == goal
        invariant entity.level == old(entity.level)
      {
        ghost var s := entity.State();
        var moved := MoveEntityUp(entity);
        if moved {
          dy := dy + PIXEL;
        } else {
          StopEntityY(entity);
          blocked := true;
          assert entity.State() == C.IntegrateY(views, s, dy);
          return;
        }
      }
    }

    /** The fractional rest of updateEntityMotionY downwards. */
    method MoveDownRemainder(entity: Entity, dy: int)
      requires LayersValid() && 0 < dy < PIXEL
      modifies entity
      ensures entity.State() == C.RestY(Views(), old(entity.State()), dy)
      ensures entity.level == old(entity.level)
      ensures LayersValid() && Views() == old(Views())
    {
      ghost var views, s := Views(), entity.State();
      var edge := Util.PixelFloor(entity.positionY + dy) == Util.PixelFloor(entity.positionY + PIXEL);
      if edge {
        var free := CanEntityMoveDown(entity);
        if free {
          MoveEntityY(entity, dy);
        } else {
          StopEntityY(entity);
        }
      } else {
        MoveEntityY(entity, dy);
      }
      assert Views() == views;
      assert entity.State() == C.RestY(views, s, dy);
    }

    /** The fractional rest of updateEntityMotionY upwards. */
    method MoveUpRemainder(entity: Entity, dy: int)
      requires LayersValid() && -PIXEL < dy < 0
      modifies entity
      ensures entity.State() == C.RestY(Views(), old(entity.State()), dy)
      ensures entity.level == old(entity.level)
      ensures LayersValid() && Views() == old(Views())
    {
      ghost var views, s := Views(), entity.State();
      var edge := Util.PixelFloor(entity.positionY + dy) == Util.PixelFloor(entity.positionY - PIXEL);
      if edge {
        var free := CanEntityMoveUp(entity);
        if free {
          MoveEntityY(entity, dy);
        } else {
          StopEntityY(entity);
        }
      } else {
        MoveEntityY(entity, dy);
      }
      assert Views() == views;
      assert entity.State() == C.RestY(views, s, dy);
    }

    /** updateEntityMotionY: integrate the y velocity, whole pixels first and then the rest. */
    method UpdateEntityMotionY(entity: Entity)
      requires LayersValid()
      modifies entity
      ensures entity.State() == C.MotionY(Views(), old(entity.State())) && entity.level == old(entity.level)
      ensures LayersValid() && Views() == old(Views())
    {
      var dy := entity.velocityY;
      var blocked;
      if dy >= 0 {
        dy, blocked := MoveDownPixels(entity, dy);
        if !blocked && dy > 0 {
          MoveDownRemainder(entity, dy);
        }
      } else {
        dy, blocked := MoveUpPixels(entity, dy);
        if !blocked && dy < 0 {
          MoveUpRemainder(entity, dy);
        }
      }
    }

    /** The motion part of updateEntity: accelerate and move on x, then on y. */
    method UpdateEntityMotion(entity: Entity)
      requires LayersValid()
      modifies entity
      ensures entity.State() == EntityMotion(Views(), old(entity.State()))
      ensures entity.level == old(entity.level)
      ensures LayersValid() && Views() == old(Views())
    {
      ghost var views := Views();
      ghost var s := entity.State();
      entity.velocityX := entity.velocityX + entity.accelerationX;
      assert Views() == views;
      UpdateEntityMotionX(entity);
      ghost var s1 := entity.State();
      assert s1 == C.MotionX(views, s.(velocityX := s.velocityX + s.accelerationX));
      entity.velocityY := entity.velocityY + entity.accelerationY;
      assert Views() == views;
      UpdateEntityMotionY(entity);
    }

    /** updateEntity: the motion, then the entity's own update (the player physics for a player). */
    method UpdateEntity(entity: Entity, held: set<Input.Button>)
      requires LayersValid() && entity.level == this
      modifies entity
      ensures entity.State() == EntityFrame(Views(), held, entity.isPlayer, old(entity.State()))
      ensures entity.level == old(entity.level)
      ensures LayersValid() && Views() == old(Views())
    {
      UpdateEntityMotion(entity);
      if entity.isPlayer {
        P.OnUpdate(entity, Views(), held);
      }
    }

    // Moving layers.

    /** Move layer li by dx units; the other layers keep their values. */
    method OffsetLayerX(li: nat, dx: int)
      requires LayersValid() && li < |layers|
      modifies layers[li]
      ensures LayersValid() && Views() == C.ShiftLayer(old(Views()), li, dx, 0)
      ensures old(Valid()) ==> Valid()
      ensures States() == old(States())
    {
      ghost var views, ss := Views(), States();
      var layer := layers[li];
      layer.positionX := layer.positionX + dx;
      assert layer.View() == C.Shifted(views[li], dx, 0);
      assert forall j :: 0 <= j < |layers| && j != li ==> layers[j].View() == views[j];
      assert forall k :: 0 <= k < |entities| ==> entities[k].State() == ss[k];
    }

    /** Move layer li by dy units; the other layers keep their values. */
    method OffsetLayerY(li: nat, dy: int)
      requires LayersValid() && li < |layers|
      modifies layers[li]
      ensures LayersValid() && Views() == C.ShiftLayer(old(Views()), li, 0, dy)
      ensures old(Valid()) ==> Valid()
      ensures States() == old(States())
    {
      ghost var views, ss := Views(), States();
      var layer := layers[li];
      layer.positionY := layer.positionY + dy;
      assert layer.View() == C.Shifted(views[li], 0, dy);
      assert forall j :: 0 <= j < |layers| && j != li ==> layers[j].View() == views[j];
      assert forall k :: 0 <= k < |entities| ==> entities[k].State() == ss[k];
    }

    /** Put layer li at y; the other layers keep their values. */
    method SetLayerY(li: nat, y: int)
      requires LayersValid() && li < |layers|
      modifies layers[li]
      ensures LayersValid() && Views() == old(Views())[li := old(Views())[li].(positionY := y)]
      ensures old(Valid()) ==> Valid()
      ensures States() == old(States())
    {
      ghost var views, ss := Views(), States();
      var layer := layers[li];
      layer.positionY := y;
      assert layer.View() == views[li].(positionY := y);
      assert forall j :: 0 <= j < |layers| && j != li ==> layers[j].View() == views[j];
      assert forall k :: 0 <= k < |entities| ==> entities[k].State() == ss[k];
    }

    /** The push test of moveLayerLeft: a left edge of the layer just right of some row of the entity. */
    method IsEntityAtLeftEdge(layer: L.Layer, entity: Entity) returns (b: bool)
      requires layer.Valid()
      ensures b == C.BlocksRight(layer.View(), entity.State())
    {
      var s := entity.State();
      var y := 0;
      while y < entity.height
        invariant 0 <= y
        invariant forall yy :: 0 <= yy < y ==> !C.RightProbe(layer.View(), s, yy)
      {
        if L.HasLeftCollision(layer.View(), GetRight(s) + 1, GetTop(s) + y) {
          assert C.RightProbe(layer.View(), s, y);
          return true;
        }
        y := y + 1;
      }
      return false;
    }

    /** The push test of moveLayerRight: a right edge of the layer just left of some row of the entity. */
    method IsEntityAtRightEdge(layer: L.Layer, entity: Entity) returns (b: bool)
      requires layer.Valid()
      ensures b == C.BlocksLeft(layer.View(), entity.State())
    {
      var s := entity.State();
      var y := 0;
      while y < entity.height
        invariant 0 <= y
        invariant forall yy :: 0 <= yy < y ==> !C.LeftProbe(layer.View(), s, yy)
      {
        if L.HasRightCollision(layer.View(), GetLeft(s) - 1, GetTop(s) + y) {
          assert C.LeftProbe(layer.View(), s, y);
          return true;
        }
        y := y + 1;
      }
      return false;
    }

    /** The push test of moveLayerDown: a bottom edge of the layer just above some column of the entity. */
    method IsEntityAtBottomEdge(layer: L.Layer, entity: Entity) returns (b: bool)
      requires layer.Valid()
      ensures b == C.BlocksUp(layer.View(), entity.State())
    {
      var s := entity.State();
      var x := 0;
      while x < entity.width
        invariant 0 <= x
        invariant forall xx :: 0 <= xx < x ==> !C.UpProbe(layer.View(), s, xx)
      {
        if L.HasBottomCollision(layer.View(), GetLeft(s) + x, GetTop(s) - 1) {
          assert C.UpProbe(layer.View(), s, x);
          return true;
        }
        x := x + 1;
      }
      return false;
    }

    /** The first pass of moveLayerLeft for one entity: carried if standing, pushed if at the edge. */
    method CarryEntityLeft(li: nat, entity: Entity)
      requires LayersValid() && li < |layers|
      modifies entity
      ensures entity.State() == C.CarryLeft(Views(), li, old(entity.State()))
      ensures entity.level == old(entity.level)
      ensures LayersValid() && Views() == old(Views())
    {
      var standing := IsEntityStandingOnLayer(layers[li], entity);
      if standing {
        var free := CanEntityMoveLeft(entity);
        if free {
          MoveEntityXBy(entity, -PIXEL);
        }
      } else {
        var pushed := IsEntityAtLeftEdge(layers[li], entity);
        if pushed {
          var moved := MoveEntityLeft(entity);
        }
      }
    }

    /** The first pass of moveLayerRight for one entity. */
    method CarryEntityRight(li: nat, entity: Entity)
      requires LayersValid() && li < |layers|
      modifies entity
      ensures entity.State() == C.CarryRight(Views(), li, old(entity.State()))
      ensures entity.level == old(entity.level)
      ensures LayersValid() && Views() == old(Views())
    {
      var standing := IsEntityStandingOnLayer(layers[li], entity);
      if standing {
        var free := CanEntityMoveRight(entity);
        if free {
          MoveEntityXBy(entity, PIXEL);
        }
      } else {
        var pushed := IsEntityAtRightEdge(layers[li], entity);
        if pushed {
          var moved := MoveEntityRight(entity);
        }
      }
    }

    /** The second pass of a horizontal layer move for one entity: out of a slope of the layer, one pixel up. */
    method CatchEntityOnSlope(li: nat, entity: Entity)
      requires LayersValid() && li < |layers|
      modifies entity
      ensures entity.State() == C.SlopeCatch(Views(), li, old(entity.State()))
      ensures entity.level == old(entity.level)
      ensures LayersValid() && Views() == old(Views())
    {
      if L.HasSlopeCollision(layers[li].View(), GetCenterX(entity.State()), GetBottom(entity.State())) {
        var moved := MoveEntityUp(entity);
      }
    }

    /** moveLayerUp for one entity: one standing on the layer moves up. */
    method LiftEntity(li: nat, entity: Entity)
      requires LayersValid() && li < |layers|
      modifies entity
      ensures entity.State() == C.LayerUpStep(Views(), li, old(entity.State()))
      ensures entity.level == old(entity.level)
      ensures LayersValid() && Views() == old(Views())
    {
      var standing := IsEntityStandingOnLayer(layers[li], entity);
      if standing {
        var moved := MoveEntityUp(entity);
      }
    }

    /**
     * moveLayerDown for an entity standing on the layer: the layer is nudged
     * one pixel down out of the entity's way, the entity moves down if it
     * can, and the layer is put back.
     */
    method LowerStandingEntity(li: nat, entity: Entity)
      requires LayersValid() && li < |layers|
      modifies layers[li], entity
      ensures LayersValid() && Views() == old(Views())
      ensures entity.State() == C.MoveDownStep(C.ShiftLayer(old(Views()), li, 0, PIXEL), old(entity.State())).entity
      ensures entity.level == old(entity.level)
    {
      ghost var views := Views();
      var positionY := layers[li].positionY;
      assert positionY == views[li].positionY;
      OffsetLayerY(li, PIXEL);
      var moved := MoveEntityDown(entity);
      SetLayerY(li, positionY);
      C.ShiftLayerRestoreY(views, li, PIXEL);
    }

    /**
     * moveLayerDown for one entity: one standing on the layer moves down
     * past the nudged layer; one at the layer's bottom edge is pushed down.
     */
    method LowerEntity(li: nat, entity: Entity)
      requires LayersValid() && li < |layers|
      modifies layers[li], entity
      ensures LayersValid() && Views() == old(Views())
      ensures entity.State() == C.LayerDownStep(old(Views()), li, old(entity.State()))
      ensures entity.level == old(entity.level)
    {
      var standing := IsEntityStandingOnLayer(layers[li], entity);
      if standing {
        LowerStandingEntity(li, entity);
      } else {
        var pushed := IsEntityAtBottomEdge(layers[li], entity);
        if pushed {
          var moved := MoveEntityDown(entity);
        }
      }
    }

    /** One entity's step of CarryEntitiesLeft: entity k changes, the others and the layers do not. */
    method CarryEntityLeftAt(li: nat, k: nat)
      requires Valid() && li < |layers| && k < |entities|
      modifies entities[k]
      ensures Valid() && Views() == old(Views())
      ensures States() == old(States())[k := C.CarryLeft(old(Views()), li, old(States())[k])]
    {
      ghost var ss := States();
      CarryEntityLeft(li, entities[k]);
      assert forall j :: 0 <= j < |ss| ==> States()[j] == ss[k := C.CarryLeft(Views(), li, ss[k])][j];
    }

    /** The first pass of moveLayerLeft, over the entities in order. */
    method CarryEntitiesLeft(li: nat)
      requires Valid() && li < |layers|
      modifies entities
      ensures Valid() && Views() == old(Views())
      ensures States() == C.CarryLeftAll(old(Views()), li, old(States()))
    {
      ghost var views, ss := Views(), States();
      ghost var done := C.CarryLeftAll(views, li, ss);
      Util.PrefixEnds(done, ss);
      var k := 0;
      while k < |entities|
        invariant 0 <= k <= |entities| == |ss|
        invariant Valid() && Views() == views
        invariant States() == done[..k] + ss[k..]
        decreases |entities| - k
      {
        Util.PrefixStep(done, ss, k);
        CarryEntityLeftAt(li, k);
        k := k + 1;
      }
    }

    /** One entity's step of CarryEntitiesRight: entity k changes, the others and the layers do not. */
    method CarryEntityRightAt(li: nat, k: nat)
      requires Valid() && li < |layers| && k < |entities|
      modifies entities[k]
      ensures Valid() && Views() == old(Views())
      ensures States() == old(States())[k := C.CarryRight(old(Views()), li, old(States())[k])]
    {
      ghost var ss := States();
      CarryEntityRight(li, entities[k]);
      assert forall j :: 0 <= j < |ss| ==> States()[j] == ss[k := C.CarryRight(Views(), li, ss[k])][j];
    }

    /** The first pass of moveLayerRight, over the entities in order. */
    method CarryEntitiesRight(li: nat)
      requires Valid() && li < |layers|
      modifies entities
      ensures Valid() && Views() == old(Views())
      ensures States() == C.CarryRightAll(old(Views()), li, old(States()))
    {
      ghost var views, ss := Views(), States();
      ghost var done := C.CarryRightAll(views, li, ss);
      Util.PrefixEnds(done, ss);
      var k := 0;
      while k < |entities|
        invariant 0 <= k <= |entities| == |ss|
        invariant Valid() && Views() == views
        invariant States() == done[..k] + ss[k..]
        decreases |entities| - k
      {
        Util.PrefixStep(done, ss, k);
        CarryEntityRightAt(li, k);
        k := k + 1;
      }
    }

    /** One entity's step of CatchEntitiesOnSlopes: entity k changes, the others and the layers do not. */
    method CatchEntityOnSlopeAt(li: nat, k: nat)
      requires Valid() && li < |layers| && k < |entities|
      modifies entities[k]
      ensures Valid() && Views() == old(Views())
      ensures States() == old(States())[k := C.SlopeCatch(old(Views()), li, old(States())[k])]
    {
      ghost var ss := States();
      CatchEntityOnSlope(li, entities[k]);
      assert forall j :: 0 <= j < |ss| ==> States()[j] == ss[k := C.SlopeCatch(Views(), li, ss[k])][j];
    }

    /** The second pass of a horizontal layer move, over the entities in order. */
    method CatchEntitiesOnSlopes(li: nat)
      requires Valid() && li < |layers|
      modifies entities
      ensures Valid() && Views() == old(Views())
      ensures States() == C.SlopeCatchAll(old(Views()), li, old(States()))
    {
      ghost var views, ss := Views(), States();
      ghost var done := C.SlopeCatchAll(views, li, ss);
      Util.PrefixEnds(done, ss);
      var k := 0;
      while k < |entities|
        invariant 0 <= k <= |entities| == |ss|
        invariant Valid() && Views() == views
        invariant States() == done[..k] + ss[k..]
        decreases |entities| - k
      {
        Util.PrefixStep(done, ss, k);
        CatchEntityOnSlopeAt(li, k);
        k := k + 1;
      }
    }

    /** One entity's step of LiftEntities: entity k changes, the others and the layers do not. */
    method LiftEntityAt(li: nat, k: nat)
      requires Valid() && li < |layers| && k < |entities|
      modifies entities[k]
      ensures Valid() && Views() == old(Views())
      ensures States() == old(States())[k := C.LayerUpStep(old(Views()), li, old(States())[k])]
    {
      ghost var ss := States();
      LiftEntity(li, entities[k]);
      assert forall j :: 0 <= j < |ss| ==> States()[j] == ss[k := C.LayerUpStep(Views(), li, ss[k])][j];
    }

    /** moveLayerUp's pass over the entities. */
    method LiftEntities(li: nat)
      requires Valid() && li < |layers|
      modifies entities
      ensures Valid() && Views() == old(Views())
      ensures States() == C.UpStepAll(old(Views()), li, old(States()))
    {
      ghost var views, ss := Views(), States();
      ghost var done := C.UpStepAll(views, li, ss);
      Util.PrefixEnds(done, ss);
      var k := 0;
      while k < |entities|
        invariant 0 <= k <= |entities| == |ss|
        invariant Valid() && Views() == views
        invariant States() == done[..k] + ss[k..]
        decreases |entities| - k
      {
        Util.PrefixStep(done, ss, k);
        LiftEntityAt(li, k);
        k := k + 1;
      }
    }

    /** One entity's step of LowerEntities: entity k changes, the others and the layers do not. */
    method LowerEntityAt(li: nat, k: nat)
      requires Valid() && li < |layers| && k < |entities|
      modifies layers[li], entities[k]
      ensures Valid() && Views() == old(Views())
      ensures States() == old(States())[k := C.LayerDownStep(old(Views()), li, old(States())[k])]
    {
      ghost var ss := States();
      LowerEntity(li, entities[k]);
      assert forall j :: 0 <= j < |ss| ==> States()[j] == ss[k := C.LayerDownStep(Views(), li, ss[k])][j];
    }

    /** moveLayerDown's pass over the entities. */
    method LowerEntities(li: nat)
      requires Valid() && li < |layers|
      modifies layers[li], entities
      ensures Valid() && Views() == old(Views())
      ensures States() == C.DownStepAll(old(Views()), li, old(States()))
    {
      ghost var views, ss := Views(), States();
      ghost var done := C.DownStepAll(views, li, ss);
      Util.PrefixEnds(done, ss);
      var k := 0;
      while k < |entities|
        invariant 0 <= k <= |entities| == |ss|
        invariant Valid() && Views() == views
        invariant States() == done[..k] + ss[k..]
        decreases |entities| - k
      {
        Util.PrefixStep(done, ss, k);
        LowerEntityAt(li, k);
        k := k + 1;
      }
    }

    /** moveLayerLeft: carry or push the entities, move the layer one pixel left, then catch entities in its slopes. */
    method MoveLayerLeft(li: nat)
      requires Valid() && li < |layers|
      modifies layers[li], entities
      ensures Valid() && Views() == C.ShiftLayer(old(Views()), li, -PIXEL, 0)
      ensures States() == C.LeftStepAll(old(Views()), li, old(States()))
    {
      ghost var views, ss := Views(), States();
      CarryEntitiesLeft(li);
      OffsetLayerX(li, -PIXEL);
      CatchEntitiesOnSlopes(li);
      C.LeftStepAllPasses(views, li, ss);
    }

    /** moveLayerRight: carry or push the entities, move the layer one pixel right, then catch entities in its slopes. */
    method MoveLayerRight(li: nat)
      requires Valid() && li < |layers|
      modifies layers[li], entities
      ensures Valid() && Views() == C.ShiftLayer(old(Views()), li, PIXEL, 0)
      ensures States() == C.RightStepAll(old(Views()), li, old(States()))
    {
      ghost var views, ss := Views(), States();
      CarryEntitiesRight(li);
      OffsetLayerX(li, PIXEL);
      CatchEntitiesOnSlopes(li);
      C.RightStepAllPasses(views, li, ss);
    }

    /** moveLayerUp: lift the entities standing on the layer, then move it one pixel up. */
    method MoveLayerUp(li: nat)
      requires Valid() && li < |layers|
      modifies layers[li], entities
      ensures Valid() && Views() == C.ShiftLayer(old(Views()), li, 0, -PIXEL)
      ensures States() == C.UpStepAll(old(Views()), li, old(States()))
    {
      LiftEntities(li);
      OffsetLayerY(li, -PIXEL);
    }

    /** moveLayerDown: lower or push the entities, then move the layer one pixel down. */
    method MoveLayerDown(li: nat)
      requires Valid() && li < |layers|
      modifies layers[li], entities
      ensures Valid() && Views() == C.ShiftLayer(old(Views()), li, 0, PIXEL)
      ensures States() == C.DownStepAll(old(Views()), li, old(States()))
    {
      LowerEntities(li);
      OffsetLayerY(li, PIXEL);
    }

    /** One whole pixel of updateLayerMotionX: a moveLayerRight. */
    method LayerRightPixel(li: nat, dx: int)
      requires Valid() && li < |layers| && dx >= PIXEL
      modifies layers[li], entities
      ensures Valid()
      ensures C.LevelMotionX(Views(), li, States(), dx - PIXEL) == C.LevelMotionX(old(Views()), li, old(States()), dx)
    {
      ghost var vs, ss := Views(), States();
      MoveLayerRight(li);
      C.LevelMotionXPixel(vs, li, ss, dx);
    }

    /** The whole-pixel part of updateLayerMotionX: moveLayerRight while a whole pixel remains. */
    method LayerRightPixels(li: nat, dx0: int) returns (dx: int)
      requires Valid() && li < |layers| && dx0 >= 0
      modifies layers[li], entities
      ensures Valid() && 0 <= dx < PIXEL
      ensures C.LevelMotionX(Views(), li, States(), dx) == C.LevelMotionX(old(Views()), li, old(States()), dx0)
    {
      ghost var goal := C.LevelMotionX(Views(), li, States(), dx0);
      dx := dx0;
      while dx >= PIXEL
        invariant Valid() && 0 <= dx <= dx0
        invariant C.LevelMotionX(Views(), li, States(), dx) == goal
        decreases dx
      {
        LayerRightPixel(li, dx);
        dx := dx - PIXEL;
      }
    }

    /** A whole moveLayerRight that the layer then undoes; the entities stay moved. */
    method LayerRightStepBack(li: nat)
      requires Valid() && li < |layers|
      modifies layers[li], entities
      ensures Valid() && Views() == old(Views())
      ensures States() == C.RightStepAll(old(Views()), li, old(States()))
    {
      ghost var views := Views();
      MoveLayerRight(li);
      ghost var states := States();
      OffsetLayerX(li, -PIXEL);
      assert States() == states;
      C.ShiftLayerBack(views, li, PIXEL, 0, -PIXEL, 0);
    }

    /**
     * The rest of updateLayerMotionX when it reaches the next pixel: a whole
     * moveLayerRight, the layer put back by one pixel, then the rest added.
     */
    method LayerRightCrossing(li: nat, dx: int)
      requires Valid() && li < |layers| && 0 < dx < PIXEL
      requires Util.PixelFloor(Views()[li].positionX + dx) == Util.PixelFloor(Views()[li].positionX + PIXEL)
      modifies layers[li], entities
      ensures Valid() && (Views(), States()) == C.LevelMotionX(old(Views()), li, old(States()), dx)
    {
      ghost var views, ss := Views(), States();
      LayerRightStepBack(li);
      ghost var moved := States();
      OffsetLayerX(li, dx);
      assert States() == moved;
      C.LevelMotionXCrossing(views, li, ss, dx);
    }

    /** The rest of updateLayerMotionX within the current pixel: only the layer moves. */
    method LayerRightSlide(li: nat, dx: int)
      requires Valid() && li < |layers| && 0 < dx < PIXEL
      requires !(Util.PixelFloor(Views()[li].positionX + dx) == Util.PixelFloor(Views()[li].positionX + PIXEL))
      modifies layers[li]
      ensures Valid() && (Views(), States()) == C.LevelMotionX(old(Views()), li, old(States()), dx)
    {
      ghost var views, ss := Views(), States();
      OffsetLayerX(li, dx);
      assert States() == ss;
      C.LevelMotionXSlide(views, li, ss, dx);
    }

    /** The fractional rest of updateLayerMotionX, dx units with 0 < dx < PIXEL. */
    method LayerRightRest(li: nat, dx: int)
      requires Valid() && li < |layers| && 0 < dx < PIXEL
      modifies layers[li], entities
      ensures Valid() && (Views(), States()) == C.LevelMotionX(old(Views()), li, old(States()), dx)
    {
      var positionX := layers[li].positionX;
      assert positionX == Views()[li].positionX;
      if Util.PixelFloor(positionX + dx) == Util.PixelFloor(positionX + PIXEL) {
        LayerRightCrossing(li, dx);
      } else {
        LayerRightSlide(li, dx);
      }
    }

    /** One whole pixel of updateLayerMotionX: a moveLayerLeft. */
    method LayerLeftPixel(li: nat, dx: int)
      requires Valid() && li < |layers| && dx <= -PIXEL
      modifies layers[li], entities
      ensures Valid()
      ensures C.LevelMotionX(Views(), li, States(), dx + PIXEL) == C.LevelMotionX(old(Views()), li, old(States()), dx)
    {
      ghost var vs, ss := Views(), States();
      MoveLayerLeft(li);
      C.LevelMotionXPixel(vs, li, ss, dx);
    }

    /** The whole-pixel part of updateLayerMotionX: moveLayerLeft while a whole pixel remains. */
    method LayerLeftPixels(li: nat, dx0: int) returns (dx: int)
      requires Valid() && li < |layers| && dx0 <= 0
      modifies layers[li], entities
      ensures Valid() && -PIXEL < dx <= 0
      ensures C.LevelMotionX(Views(), li, States(), dx) == C.LevelMotionX(old(Views()), li, old(States()), dx0)
    {
      ghost var goal := C.LevelMotionX(Views(), li, States(), dx0);
      dx := dx0;
      while dx <= -PIXEL
        invariant Valid() && dx0 <= dx <= 0
        invariant C.LevelMotionX(Views(), li, States(), dx) == goal
        decreases -dx
      {
        LayerLeftPixel(li, dx);
        dx := dx + PIXEL;
      }
    }

    /** A whole moveLayerLeft that the layer then undoes; the entities stay moved. */
    method LayerLeftStepBack(li: nat)
      requires Valid() && li < |layers|
      modifies layers[li], entities
      ensures Valid() && Views() == old(Views())
      ensures States() == C.LeftStepAll(old(Views()), li, old(States()))
    {
      ghost var views := Views();
      MoveLayerLeft(li);
      ghost var states := States();
      OffsetLayerX(li, PIXEL);
      assert States() == states;
      C.ShiftLayerBack(views, li, -PIXEL, 0, PIXEL, 0);
    }

    /**
     * The rest of updateLayerMotionX when it reaches the next pixel: a whole
     * moveLayerLeft, the layer put back by one pixel, then the rest added.
     */
    method LayerLeftCrossing(li: nat, dx: int)
      requires Valid() && li < |layers| && -PIXEL < dx < 0
      requires Util.PixelFloor(Views()[li].positionX + dx) == Util.PixelFloor(Views()[li].positionX - PIXEL)
      modifies layers[li], entities
      ensures Valid() && (Views(), States()) == C.LevelMotionX(old(Views()), li, old(States()), dx)
    {
      ghost var views, ss := Views(), States();
      LayerLeftStepBack(li);
      ghost var moved := States();
      OffsetLayerX(li, dx);
      assert States() == moved;
      C.LevelMotionXCrossing(views, li, ss, dx);
    }

    /** The rest of updateLayerMotionX within the current pixel: only the layer moves. */
    method LayerLeftSlide(li: nat, dx: int)
      requires Valid() && li < |layers| && -PIXEL < dx < 0
      requires !(Util.PixelFloor(Views()[li].positionX + dx) == Util.PixelFloor(Views()[li].positionX - PIXEL))
      modifies layers[li]
      ensures Valid() && (Views(), States()) == C.LevelMotionX(old(Views()), li, old(States()), dx)
    {
      ghost var views, ss := Views(), States();
      OffsetLayerX(li, dx);
      assert States() == ss;
      C.LevelMotionXSlide(views, li, ss, dx);
    }

    /** The fractional rest of updateLayerMotionX, dx units with -PIXEL < dx < 0. */
    method LayerLeftRest(li: nat, dx: int)
      requires Valid() && li < |layers| && -PIXEL < dx < 0
      modifies layers[li], entities
      ensures Valid() && (Views(), States()) == C.LevelMotionX(old(Views()), li, old(States()), dx)
    {
      var positionX := layers[li].positionX;
      assert positionX == Views()[li].positionX;
      if Util.PixelFloor(positionX + dx) == Util.PixelFloor(positionX - PIXEL) {
        LayerLeftCrossing(li, dx);
      } else {
        LayerLeftSlide(li, dx);
      }
    }

    /**
     * updateLayerMotionX: move the layer by its x velocity, whole pixels first
     * and then the fractional rest, taking the entities along. The layer moves
     * by exactly its velocity, and each entity as if it were alone in the level.
     */
    method UpdateLayerMotionX(li: nat)
      requires Valid() && li < |layers|
      modifies layers[li], entities
      ensures Valid() && (Views(), States()) == C.LevelMotionX(old(Views()), li, old(States()), old(Views())[li].velocityX)
    {
      var dx := layers[li].velocityX;
      assert dx == Views()[li].velocityX;
      if dx >= 0 {
        dx := LayerRightPixels(li, dx);
        if dx > 0 {
          LayerRightRest(li, dx);
        }
      } else {
        dx := LayerLeftPixels(li, dx);
        if dx < 0 {
          LayerLeftRest(li, dx);
        }
      }
    }

    /** One whole pixel of updateLayerMotionY: a moveLayerDown. */
    method LayerDownPixel(li: nat, dy: int)
      requires Valid() && li < |layers| && dy >= PIXEL
      modifies layers[li], entities
      ensures Valid()
      ensures C.LevelMotionY(Views(), li, States(), dy - PIXEL) == C.LevelMotionY(old(Views()), li, old(States()), dy)
    {
      ghost var vs, ss := Views(), States();
      MoveLayerDown(li);
      C.LevelMotionYPixel(vs, li, ss, dy);
    }

    /** The whole-pixel part of updateLayerMotionY: moveLayerDown while a whole pixel remains. */
    method LayerDownPixels(li: nat, dy0: int) returns (dy: int)
      requires Valid() && li < |layers| && dy0 >= 0
      modifies layers[li], entities
      ensures Valid() && 0 <= dy < PIXEL
      ensures C.LevelMotionY(Views(), li, States(), dy) == C.LevelMotionY(old(Views()), li, old(States()), dy0)
    {
      ghost var goal := C.LevelMotionY(Views(), li, States(), dy0);
      dy := dy0;
      while dy >= PIXEL
        invariant Valid() && 0 <= dy <= dy0
        invariant C.LevelMotionY(Views(), li, States(), dy) == goal
        decreases dy
      {
        LayerDownPixel(li, dy);
        dy := dy - PIXEL;
      }
    }

    /** A whole moveLayerDown that the layer then undoes; the entities stay moved. */
    method LayerDownStepBack(li: nat)
      requires Valid() && li < |layers|
      modifies layers[li], entities
      ensures Valid() && Views() == old(Views())
      ensures States() == C.DownStepAll(old(Views()), li, old(States()))
    {
      ghost var views := Views();
      MoveLayerDown(li);
      ghost var states := States();
      OffsetLayerY(li, -PIXEL);
      assert States() == states;
      C.ShiftLayerBack(views, li, 0, PIXEL, 0, -PIXEL);
    }

    /**
     * The rest of updateLayerMotionY when it reaches the next pixel: a whole
     * moveLayerDown, the layer put back by one pixel, then the rest added.
     */
    method LayerDownCrossing(li: nat, dy: int)
      requires Valid() && li < |layers| && 0 < dy < PIXEL
      requires Util.PixelFloor(Views()[li].positionY + dy) == Util.PixelFloor(Views()[li].positionY + PIXEL)
      modifies layers[li], entities
      ensures Valid() && (Views(), States()) == C.LevelMotionY(old(Views()), li, old(States()), dy)
    {
      ghost var views, ss := Views(), States();
      LayerDownStepBack(li);
      ghost var moved := States();
      OffsetLayerY(li, dy);
      assert States() == moved;
      C.LevelMotionYCrossing(views, li, ss, dy);
    }

    /** The rest of updateLayerMotionY within the current pixel: only the layer moves. */
    method LayerDownSlide(li: nat, dy: int)
      requires Valid() && li < |layers| && 0 < dy < PIXEL
      requires !(Util.PixelFloor(Views()[li].positionY + dy) == Util.PixelFloor(Views()[li].positionY + PIXEL))
      modifies layers[li]
      ensures Valid() && (Views(), States()) == C.LevelMotionY(old(Views()), li, old(States()), dy)
    {
      ghost var views, ss := Views(), States();
      OffsetLayerY(li, dy);
      assert States() == ss;
      C.LevelMotionYSlide(views, li, ss, dy);
    }

    /** The fractional rest of updateLayerMotionY, dy units with 0 < dy < PIXEL. */
    method LayerDownRest(li: nat, dy: int)
      requires Valid() && li < |layers| && 0 < dy < PIXEL
      modifies layers[li], entities
      ensures Valid() && (Views(), States()) == C.LevelMotionY(old(Views()), li, old(States()), dy)
    {
      var positionY := layers[li].positionY;
      assert positionY == Views()[li].positionY;
      if Util.PixelFloor(positionY + dy) == Util.PixelFloor(positionY + PIXEL) {
        LayerDownCrossing(li, dy);
      } else {
        LayerDownSlide(li, dy);
      }
    }

    /** One whole pixel of updateLayerMotionY: a moveLayerUp. */
    method LayerUpPixel(li: nat, dy: int)
      requires Valid() && li < |layers| && dy <= -PIXEL
      modifies layers[li], entities
      ensures Valid()
      ensures C.LevelMotionY(Views(), li, States(), dy + PIXEL) == C.LevelMotionY(old(Views()), li, old(States()), dy)
    {
      ghost var vs, ss := Views(), States();
      MoveLayerUp(li);
      C.LevelMotionYPixel(vs, li, ss, dy);
    }

    /** The whole-pixel part of updateLayerMotionY: moveLayerUp while a whole pixel remains. */
    method LayerUpPixels(li: nat, dy0: int) returns (dy: int)
      requires Valid() && li < |layers| && dy0 <= 0
      modifies layers[li], entities
      ensures Valid() && -PIXEL < dy <= 0
      ensures C.LevelMotionY(Views(), li, States(), dy) == C.LevelMotionY(old(Views()), li, old(States()), dy0)
    {
      ghost var goal := C.LevelMotionY(Views(), li, States(), dy0);
      dy := dy0;
      while dy <= -PIXEL
        invariant Valid() && dy0 <= dy <= 0
        invariant C.LevelMotionY(Views(), li, States(), dy) == goal
        decreases -dy
      {
        LayerUpPixel(li, dy);
        dy := dy + PIXEL;
      }
    }

    /** A whole moveLayerUp that the layer then undoes; the entities stay moved. */
    method LayerUpStepBack(li: nat)
      requires Valid() && li < |layers|
      modifies layers[li], entities
      ensures Valid() && Views() == old(Views())
      ensures States() == C.UpStepAll(old(Views()), li, old(States()))
    {
      ghost var views := Views();
      MoveLayerUp(li);
      ghost var states := States();
      OffsetLayerY(li, PIXEL);
      assert States() == states;
      C.ShiftLayerBack(views, li, 0, -PIXEL, 0, PIXEL);
    }

    /**
     * The rest of updateLayerMotionY when it reaches the next pixel: a whole
     * moveLayerUp, the layer put back by one pixel, then the rest added.
     */
    method LayerUpCrossing(li: nat, dy: int)
      requires Valid() && li < |layers| && -PIXEL < dy < 0
      requires Util.PixelFloor(Views()[li].positionY + dy) == Util.PixelFloor(Views()[li].positionY - PIXEL)
      modifies layers[li], entities
      ensures Valid() && (Views(), States()) == C.LevelMotionY(old(Views()), li, old(States()), dy)
    {
      ghost var views, ss := Views(), States();
      LayerUpStepBack(li);
      ghost var moved := States();
      OffsetLayerY(li, dy);
      assert States() == moved;
      C.LevelMotionYCrossing(views, li, ss, dy);
    }

    /** The rest of updateLayerMotionY within the current pixel: only the layer moves. */
    method LayerUpSlide(li: nat, dy: int)
      requires Valid() && li < |layers| && -PIXEL < dy < 0
      requires !(Util.PixelFloor(Views()[li].positionY + dy) == Util.PixelFloor(Views()[li].positionY - PIXEL))
      modifies layers[li]
      ensures Valid() && (Views(), States()) == C.LevelMotionY(old(Views()), li, old(States()), dy)
    {
      ghost var views, ss := Views(), States();
      OffsetLayerY(li, dy);
      assert States() == ss;
      C.LevelMotionYSlide(views, li, ss, dy);
    }

    /** The fractional rest of updateLayerMotionY, dy units with -PIXEL < dy < 0. */
    method LayerUpRest(li: nat, dy: int)
      requires Valid() && li < |layers| && -PIXEL < dy < 0
      modifies layers[li], entities
      ensures Valid() && (Views(), States()) == C.LevelMotionY(old(Views()), li, old(States()), dy)
    {
      var positionY := layers[li].positionY;
      assert positionY == Views()[li].positionY;
      if Util.PixelFloor(positionY + dy) == Util.PixelFloor(positionY - PIXEL) {
        LayerUpCrossing(li, dy);
      } else {
        LayerUpSlide(li, dy);
      }
    }

    /**
     * updateLayerMotionY: move the layer by its y velocity, whole pixels first
     * and then the fractional rest, taking the entities along. The layer moves
     * by exactly its velocity, and each entity as if it were alone in the level.
     */
    method UpdateLayerMotionY(li: nat)
      requires Valid() && li < |layers|
      modifies layers[li], entities
      ensures Valid() && (Views(), States()) == C.LevelMotionY(old(Views()), li, old(States()), old(Views())[li].velocityY)
    {
      var dy := layers[li].velocityY;
      assert dy == Views()[li].velocityY;
      if dy >= 0 {
        dy := LayerDownPixels(li, dy);
        if dy > 0 {
          LayerDownRest(li, dy);
        }
      } else {
        dy := LayerUpPixels(li, dy);
        if dy < 0 {
          LayerUpRest(li, dy);
        }
      }
    }

    /** updateLayer: updateLayerMotionX, then updateLayerMotionY. */
    method UpdateLayer(li: nat)
      requires Valid() && li < |layers|
      modifies layers[li], entities
      ensures Valid() && (Views(), States()) == C.LevelLayerUpdate(old(Views()), li, old(States()))
    {
      ghost var views, ss := Views(), States();
      UpdateLayerMotionX(li);
      ghost var x := C.LevelMotionX(views, li, ss, views[li].velocityX);
      assert (Views(), States()) == x;
      UpdateLayerMotionY(li);
    }

    /** updateLayer on layer i, read as one step of the layer pass of Level::update. */
    method UpdateLayerStep(i: nat)
      requires Valid() && i < |layers|
      modifies layers[i], entities
      ensures Valid()
      ensures C.LevelLayersFrom(Views(), i + 1, States()) == C.LevelLayersFrom(old(Views()), i, old(States()))
    {
      ghost var views, ss := Views(), States();
      UpdateLayer(i);
      C.LevelLayersFromStep(views, i, ss);
    }

    /** The layer pass of Level::update: updateLayer on every layer, in order. */
    method UpdateLayers()
      requires Valid()
      modifies layers, entities
      ensures Valid() && (Views(), States()) == C.LevelLayersFrom(old(Views()), 0, old(States()))
    {
      ghost var goal := C.LevelLayersFrom(Views(), 0, States());
      var i := 0;
      while i < |layers|
        invariant 0 <= i <= |layers|
        invariant Valid() && C.LevelLayersFrom(Views(), i, States()) == goal
        decreases |layers| - i
      {
        UpdateLayerStep(i);
        i := i + 1;
      }
    }

    /** One entity's step of the entity pass: entity k changes, the others and the layers do not. */
    method UpdateEntityAt(k: nat, held: set<Input.Button>)
      requires Valid() && k < |entities|
      modifies entities[k]
      ensures Valid() && Views() == old(Views())
      ensures States() == old(States())[k := EntityFrame(Views(), held, entities[k].isPlayer, old(States())[k])]
    {
      ghost var ss := States();
      UpdateEntity(entities[k], held);
      assert forall j :: 0 <= j < |ss| ==>
        States()[j] == ss[k := EntityFrame(Views(), held, entities[k].isPlayer, ss[k])][j];
    }

    /** The entity pass of Level::update: updateEntity on every entity, in order. */
    method UpdateEntities(held: set<Input.Button>)
      requires Valid()
      modifies entities
      ensures Valid() && Views() == old(Views())
      ensures States() == EntityFrames(old(Views()), held, PlayerFlags(entities), old(States()))
    {
      ghost var views, ss := Views(), States();
      ghost var done := EntityFrames(views, held, PlayerFlags(entities), ss);
      Util.PrefixEnds(done, ss);
      var k := 0;
      while k < |entities|
        invariant 0 <= k <= |entities| == |ss|
        invariant Valid() && Views() == views
        invariant States() == done[..k] + ss[k..]
        decreases |entities| - k
      {
        Util.PrefixStep(done, ss, k);
        UpdateEntityAt(k, held);
        k := k + 1;
      }
    }

    /**
     * Level::update: the layers move one after another, each by its velocity,
     * carrying and pushing the entities; then each entity runs its own
     * update in the moved level. Every entity ends as the one-entity model
     * of the frame says, whatever the other entities do.
     */
    method Update(held: set<Input.Button>)
      requires Valid()
      modifies layers, entities
      ensures Valid() && Views() == C.MovedLayers(old(Views()))
      ensures States() == LevelFrames(old(Views()), held, PlayerFlags(entities), old(States()))
    {
      ghost var views, ss, flags := Views(), States(), PlayerFlags(entities);
      UpdateLayers();
      LevelPasses(views, held, flags, ss);
      ghost var moved := States();
      assert moved == C.LevelLayersFrom(views, 0, ss).1;
      UpdateEntities(held);
      assert States() == EntityFrames(C.MovedLayers(views), held, flags, moved);
    }
  }
}
