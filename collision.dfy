/**
 * What the level's collision and movement code computes
 * (source/level/Level.cpp), as functions of the values of the level's
 * layers and of one entity.
 *
 * Entities collide with layers only, never with each other, so what the
 * level does to an entity is a function of the layers' values and that
 * entity's value. The `Level` class (module Levels) runs the loops of the
 * source and is proved to compute these functions.
 *
 * Positions are in units of 1/256 pixel; PIXEL units make one pixel.
 */
module Collision {

  import Util
  import L = Layers
  import opened Entities
  import B = Blocks
  import opened Wrappers

  const PIXEL: int := Util.UNITS_PER_PIXEL

  // The per-pixel probes of the four movement checks, named so that the
  // quantifiers over the probed pixel have something to hang on.

  /** Left check, row y of the entity: a right edge just left of it. */
  predicate LeftProbe(l: L.LayerState, s: EntityState, y: int)
  {
    L.HasRightCollision(l, GetLeft(s) - 1, GetTop(s) + y)
  }

  /** Right check, row y of the entity: a left edge just right of it. */
  predicate RightProbe(l: L.LayerState, s: EntityState, y: int)
  {
    L.HasLeftCollision(l, GetRight(s) + 1, GetTop(s) + y)
  }

  /** Up check, column x of the entity: a bottom edge just above it. */
  predicate UpProbe(l: L.LayerState, s: EntityState, x: int)
  {
    L.HasBottomCollision(l, GetLeft(s) + x, GetTop(s) - 1)
  }

  /** Down check, column x of the entity: a top edge just below it. */
  predicate DownProbe(l: L.LayerState, s: EntityState, x: int)
  {
    L.HasTopCollision(l, GetLeft(s) + x, GetBottom(s) + 1)
  }

  /** Down check at the centre column: a slope surface just below it. */
  predicate SlopeBelow(l: L.LayerState, s: EntityState)
  {
    L.HasSlopeCollision(l, GetCenterX(s), GetBottom(s) + 1)
  }

  /** One layer stops a move to the left: some row of the entity meets a right edge. */
  predicate BlocksLeft(l: L.LayerState, s: EntityState)
  {
    exists y :: 0 <= y < s.height && LeftProbe(l, s, y)
  }

  predicate BlocksRight(l: L.LayerState, s: EntityState)
  {
    exists y :: 0 <= y < s.height && RightProbe(l, s, y)
  }

  predicate BlocksUp(l: L.LayerState, s: EntityState)
  {
    exists x :: 0 <= x < s.width && UpProbe(l, s, x)
  }

  /** One layer stops a move down: a slope below the centre, or a top edge below some column. */
  predicate BlocksDown(l: L.LayerState, s: EntityState)
  {
    SlopeBelow(l, s) || exists x :: 0 <= x < s.width && DownProbe(l, s, x)
  }

  /** canEntityMoveLeft: no layer blocks. */
  predicate CanMoveLeft(ls: seq<L.LayerState>, s: EntityState)
  {
    forall i :: 0 <= i < |ls| ==> !BlocksLeft(ls[i], s)
  }

  predicate CanMoveRight(ls: seq<L.LayerState>, s: EntityState)
  {
    forall i :: 0 <= i < |ls| ==> !BlocksRight(ls[i], s)
  }

  predicate CanMoveUp(ls: seq<L.LayerState>, s: EntityState)
  {
    forall i :: 0 <= i < |ls| ==> !BlocksUp(ls[i], s)
  }

  predicate CanMoveDown(ls: seq<L.LayerState>, s: EntityState)
  {
    forall i :: 0 <= i < |ls| ==> !BlocksDown(ls[i], s)
  }

  /**
   * isEntityStandingOnLayer: a slope surface just below the centre pixel, or
   * a top edge just below some bottom pixel.
   */
  predicate StandingOn(l: L.LayerState, s: EntityState)
  {
    SlopeBelow(l, s) || exists x :: 0 <= x < s.width && DownProbe(l, s, x)
  }

  /** isEntityOnGround: standing on some layer. */
  predicate OnGround(ls: seq<L.LayerState>, s: EntityState)
  {
    exists i :: 0 <= i < |ls| && StandingOn(ls[i], s)
  }

  /**
   * The ground test and the downward movement check look at the same pixels
   * of every layer: an entity is on the ground exactly when it cannot move down.
   */
  lemma OnGroundIffBlockedDown(ls: seq<L.LayerState>, s: EntityState)
    ensures OnGround(ls, s) <==> !CanMoveDown(ls, s)
    ensures forall i :: 0 <= i < |ls| ==> (StandingOn(ls[i], s) <==> BlocksDown(ls[i], s))
  {
  }

  /** A water block in this cell. */
  predicate IsWater(b: Option<B.Block>)
  {
    b.Some? && b.value.collisionType == B.Water
  }

  /** isUnderwaterAt: some layer has a water block under the pixel. */
  predicate UnderwaterAt(ls: seq<L.LayerState>, x: int, y: int)
  {
    exists i :: 0 <= i < |ls| && IsWater(L.GetBlockAt(ls[i], x, y))
  }

  /** Entity::isUnderwater: the entity's centre pixel is under water. */
  predicate Underwater(ls: seq<L.LayerState>, s: EntityState)
  {
    UnderwaterAt(ls, GetCenterX(s), GetCenterY(s))
  }

  /** Player::isAtSurfaceOfWater: the centre is under water but the top centre is not. */
  predicate AtSurfaceOfWater(ls: seq<L.LayerState>, s: EntityState)
  {
    !UnderwaterAt(ls, GetCenterX(s), GetTop(s)) && Underwater(ls, s)
  }

  /** Water queries read only the cells: collision with water is never reported. */
  lemma WaterIsPassable(ls: seq<L.LayerState>, x: int, y: int, i: int)
    requires 0 <= i < |ls| && IsWater(L.GetBlockAt(ls[i], x, y))
    ensures UnderwaterAt(ls, x, y)
    ensures !L.HasTopCollision(ls[i], x, y) && !L.HasBottomCollision(ls[i], x, y)
    ensures !L.HasLeftCollision(ls[i], x, y) && !L.HasRightCollision(ls[i], x, y)
    ensures !L.HasSlopeCollision(ls[i], x, y)
  {
  }

  /** Two entity values occupying the same pixels. */
  predicate SamePlace(s: EntityState, t: EntityState)
  {
    s.positionX == t.positionX && s.positionY == t.positionY && s.width == t.width && s.height == t.height
  }

  /** The ground and water queries depend only on where the entity is. */
  lemma QueriesDependOnPlace(ls: seq<L.LayerState>, s: EntityState, t: EntityState)
    requires SamePlace(s, t)
    ensures OnGround(ls, s) == OnGround(ls, t)
    ensures Underwater(ls, s) == Underwater(ls, t)
    ensures AtSurfaceOfWater(ls, s) == AtSurfaceOfWater(ls, t)
    ensures CanMoveLeft(ls, s) == CanMoveLeft(ls, t) && CanMoveRight(ls, s) == CanMoveRight(ls, t)
    ensures CanMoveUp(ls, s) == CanMoveUp(ls, t) && CanMoveDown(ls, s) == CanMoveDown(ls, t)
  {
    assert GetLeft(s) == GetLeft(t) && GetTop(s) == GetTop(t) && GetRight(s) == GetRight(t);
    assert GetBottom(s) == GetBottom(t) && GetCenterX(s) == GetCenterX(t) && GetCenterY(s) == GetCenterY(t);
    forall i | 0 <= i < |ls|
      ensures StandingOn(ls[i], s) == StandingOn(ls[i], t)
      ensures BlocksLeft(ls[i], s) == BlocksLeft(ls[i], t) && BlocksRight(ls[i], s) == BlocksRight(ls[i], t)
      ensures BlocksUp(ls[i], s) == BlocksUp(ls[i], t) && BlocksDown(ls[i], s) == BlocksDown(ls[i], t)
    {
      assert forall x :: DownProbe(ls[i], s, x) == DownProbe(ls[i], t, x);
      assert forall x :: UpProbe(ls[i], s, x) == UpProbe(ls[i], t, x);
      assert forall y :: LeftProbe(ls[i], s, y) == LeftProbe(ls[i], t, y);
      assert forall y :: RightProbe(ls[i], s, y) == RightProbe(ls[i], t, y);
    }
  }

  // Moving an entity.

  function ShiftX(s: EntityState, dx: int): EntityState { s.(positionX := s.positionX + dx) }
  function ShiftY(s: EntityState, dy: int): EntityState { s.(positionY := s.positionY + dy) }

  /** The outcome of moveEntityUp/Down/Left/Right: whether it moved, and the entity after. */
  datatype Step = Step(moved: bool, entity: EntityState)

  /** moveEntityUp: one pixel up if nothing is in the way. */
  function MoveUpStep(ls: seq<L.LayerState>, s: EntityState): (r: Step)
    ensures r.moved == CanMoveUp(ls, s)
    ensures r.entity == if r.moved then s.(positionY := s.positionY - PIXEL) else s
  {
    if CanMoveUp(ls, s) then Step(true, ShiftY(s, -PIXEL)) else Step(false, s)
  }

  /** moveEntityDown: one pixel down if nothing is in the way. */
  function MoveDownStep(ls: seq<L.LayerState>, s: EntityState): (r: Step)
    ensures r.moved == CanMoveDown(ls, s)
    ensures r.entity == if r.moved then s.(positionY := s.positionY + PIXEL) else s
  {
    if CanMoveDown(ls, s) then Step(true, ShiftY(s, PIXEL)) else Step(false, s)
  }

  /** What the slope pass of moveEntityX tells the entity to do. */
  datatype Slope = Flat | Climb | Sink

  /**
   * The slope test of one layer: a layer the entity stands on with a slope
   * surface in the next centre column at the bottom row makes it climb, one
   * with the surface two rows lower makes it sink.
   */
  function SlopeAt(l: L.LayerState, s: EntityState, newCenterX: int): Slope
  {
    if !StandingOn(l, s) then Flat
    else if L.HasSlopeCollision(l, newCenterX, GetBottom(s)) then Climb
    else if L.HasSlopeCollision(l, newCenterX, GetBottom(s) + 2) then Sink
    else Flat
  }

  /** The slope pass of moveEntityX: the first layer, from index i on, whose test is not flat decides. */
  function SlopeScan(ls: seq<L.LayerState>, s: EntityState, newCenterX: int, i: nat): Slope
    decreases |ls| - i
  {
    if i >= |ls| then Flat
    else if SlopeAt(ls[i], s, newCenterX) != Flat then SlopeAt(ls[i], s, newCenterX)
    else SlopeScan(ls, s, newCenterX, i + 1)
  }

  /** The centre column moveEntityX looks at for slopes: one pixel beyond the centre, in the direction of motion. */
  function NextCenterX(s: EntityState, dx: int): int
  {
    if dx > 0 then GetCenterX(s) + 1 else GetCenterX(s) - 1
  }

  /** moveEntityX: move by dx, then climb or sink one pixel as the slope pass says. */
  function MoveX(ls: seq<L.LayerState>, s: EntityState, dx: int): EntityState
  {
    match SlopeScan(ls, s, NextCenterX(s, dx), 0)
    case Flat => ShiftX(s, dx)
    case Climb => MoveUpStep(ls, ShiftX(s, dx)).entity
    case Sink => ShiftY(ShiftX(s, dx), PIXEL)
  }

  /** moveEntityX in the three cases of its slope pass. */
  lemma MoveXCases(ls: seq<L.LayerState>, s: EntityState, dx: int, slope: Slope, shifted: EntityState)
    requires slope == SlopeScan(ls, s, NextCenterX(s, dx), 0) && shifted == ShiftX(s, dx)
    ensures slope == Flat ==> MoveX(ls, s, dx) == shifted
    ensures slope == Climb ==> MoveX(ls, s, dx) == MoveUpStep(ls, shifted).entity
    ensures slope == Sink ==> MoveX(ls, s, dx) == ShiftY(shifted, PIXEL)
  {
  }

  /** moveEntityLeft: one pixel left (with slopes) if nothing is in the way. */
  function MoveLeftStep(ls: seq<L.LayerState>, s: EntityState): (r: Step)
    ensures r.moved == CanMoveLeft(ls, s)
    ensures !r.moved ==> r.entity == s
  {
    if CanMoveLeft(ls, s) then Step(true, MoveX(ls, s, -PIXEL)) else Step(false, s)
  }

  /** moveEntityRight: one pixel right (with slopes) if nothing is in the way. */
  function MoveRightStep(ls: seq<L.LayerState>, s: EntityState): (r: Step)
    ensures r.moved == CanMoveRight(ls, s)
    ensures !r.moved ==> r.entity == s
  {
    if CanMoveRight(ls, s) then Step(true, MoveX(ls, s, PIXEL)) else Step(false, s)
  }

  /** A slope pass that is not flat found a layer the entity stands on. */
  lemma {:induction false} SlopeScanStanding(ls: seq<L.LayerState>, s: EntityState, ncx: int, i: nat)
    ensures SlopeScan(ls, s, ncx, i) != Flat ==> exists j :: i <= j < |ls| && StandingOn(ls[j], s)
    decreases |ls| - i
  {
    if i < |ls| && SlopeAt(ls[i], s, ncx) == Flat {
      SlopeScanStanding(ls, s, ncx, i + 1);
    }
  }

  /**
   * moveEntityX moves by exactly dx horizontally. Vertically it moves one
   * pixel up, none or one pixel down, and only when standing on a layer; the
   * downward pixel is taken without any downward check: indeed the entity
   * sinks only while it stands on a layer, when it cannot move down at all.
   */
  lemma MoveXEffect(ls: seq<L.LayerState>, s: EntityState, dx: int)
    ensures var r := MoveX(ls, s, dx);
      r.positionX == s.positionX + dx
      && r.positionY - s.positionY in {-PIXEL, 0, PIXEL}
      && r.(positionX := s.positionX, positionY := s.positionY) == s
      && (r.positionY != s.positionY ==> OnGround(ls, s))
      && (r.positionY == s.positionY + PIXEL ==> !CanMoveDown(ls, s))
  {
    SlopeScanStanding(ls, s, NextCenterX(s, dx), 0);
    OnGroundIffBlockedDown(ls, s);
  }

  /** Off the ground there are no slopes to follow: moveEntityX only shifts. */
  lemma {:induction false} MoveXInAir(ls: seq<L.LayerState>, s: EntityState, ncx: int, i: nat)
    requires !OnGround(ls, s)
    ensures SlopeScan(ls, s, ncx, i) == Flat
    decreases |ls| - i
  {
    if i < |ls| {
      assert !StandingOn(ls[i], s);
      MoveXInAir(ls, s, ncx, i + 1);
    }
  }

  /**
   * The fractional rest of updateEntityMotionX (less than a pixel either
   * way): it needs a free pixel only when it crosses into the next pixel
   * column, and a blocked crossing sets the velocity to 0 instead.
   */
  function RestX(ls: seq<L.LayerState>, s: EntityState, dx: int): EntityState
  {
    if dx > 0 then
      if Util.PixelFloor(s.positionX + dx) == Util.PixelFloor(s.positionX + PIXEL) then
        if CanMoveRight(ls, s) then MoveX(ls, s, dx) else s.(velocityX := 0)
      else ShiftX(s, dx)
    else if dx < 0 then
      if Util.PixelFloor(s.positionX + dx) == Util.PixelFloor(s.positionX - PIXEL) then
        if CanMoveLeft(ls, s) then MoveX(ls, s, dx) else s.(velocityX := 0)
      else ShiftX(s, dx)
    else s
  }

  /**
   * The body of updateEntityMotionX from the point where dx units of motion
   * remain: whole pixels one at a time while they are free, then the
   * fractional rest. A blocked pixel sets the velocity to 0 and stops.
   */
  function IntegrateX(ls: seq<L.LayerState>, s: EntityState, dx: int): EntityState
    decreases if dx < 0 then -dx else dx
  {
    if dx >= PIXEL then
      var st := MoveRightStep(ls, s);
      if st.moved then IntegrateX(ls, st.entity, dx - PIXEL) else s.(velocityX := 0)
    else if dx <= -PIXEL then
      var st := MoveLeftStep(ls, s);
      if st.moved then IntegrateX(ls, st.entity, dx + PIXEL) else s.(velocityX := 0)
    else RestX(ls, s, dx)
  }

  /** The fractional rest of updateEntityMotionY; no slopes apply. */
  function RestY(ls: seq<L.LayerState>, s: EntityState, dy: int): EntityState
  {
    if dy > 0 then
      if Util.PixelFloor(s.positionY + dy) == Util.PixelFloor(s.positionY + PIXEL) then
        if CanMoveDown(ls, s) then ShiftY(s, dy) else s.(velocityY := 0)
      else ShiftY(s, dy)
    else if dy < 0 then
      if Util.PixelFloor(s.positionY + dy) == Util.PixelFloor(s.positionY - PIXEL) then
        if CanMoveUp(ls, s) then ShiftY(s, dy) else s.(velocityY := 0)
      else ShiftY(s, dy)
    else s
  }

  /** updateEntityMotionY's body from the point where dy units remain. */
  function IntegrateY(ls: seq<L.LayerState>, s: EntityState, dy: int): EntityState
    decreases if dy < 0 then -dy else dy
  {
    if dy >= PIXEL then
      var st := MoveDownStep(ls, s);
      if st.moved then IntegrateY(ls, st.entity, dy - PIXEL) else s.(velocityY := 0)
    else if dy <= -PIXEL then
      var st := MoveUpStep(ls, s);
      if st.moved then IntegrateY(ls, st.entity, dy + PIXEL) else s.(velocityY := 0)
    else RestY(ls, s, dy)
  }

  /** updateEntityMotionX: integrate the x velocity. */
  function MotionX(ls: seq<L.LayerState>, s: EntityState): EntityState
  {
    IntegrateX(ls, s, s.velocityX)
  }

  /** updateEntityMotionY: integrate the y velocity. */
  function MotionY(ls: seq<L.LayerState>, s: EntityState): EntityState
  {
    IntegrateY(ls, s, s.velocityY)
  }

  /**
   * The motion covers the whole displacement with the velocity kept, or it
   * stops short, a whole number of pixels along, with the velocity zeroed.
   */
  predicate FullOrStopped(d: int, dx: int, v: int, v0: int)
  {
    (v == v0 && d == dx)
    || (v == 0 && d % PIXEL == 0 && (dx >= 0 ==> 0 <= d < dx) && (dx <= 0 ==> dx < d <= 0))
  }

  /** A free whole-pixel step in front of a motion that is full or stopped keeps it so. */
  lemma FullOrStoppedAfterStep(d: int, dx: int, v: int, v0: int, step: int)
    requires step == PIXEL || step == -PIXEL
    requires step == PIXEL ==> dx >= 0
    requires step == -PIXEL ==> dx <= 0
    requires FullOrStopped(d, dx, v, v0)
    ensures FullOrStopped(d + step, dx + step, v, v0)
  {
  }

  /** A motion that is stopped before its first step. */
  lemma StoppedAtOnce(dx: int, v0: int)
    requires dx != 0
    ensures FullOrStopped(0, dx, 0, v0)
  {
  }

  lemma {:induction false} IntegrateXRight(ls: seq<L.LayerState>, s: EntityState, dx: int)
    requires dx >= PIXEL && CanMoveRight(ls, s)
    requires var s1 := MoveX(ls, s, PIXEL); var r := IntegrateX(ls, s1, dx - PIXEL);
      r.(positionX := s1.positionX, positionY := s1.positionY, velocityX := s1.velocityX) == s1
      && FullOrStopped(r.positionX - s1.positionX, dx - PIXEL, r.velocityX, s1.velocityX)
    ensures var r := IntegrateX(ls, s, dx);
      r.(positionX := s.positionX, positionY := s.positionY, velocityX := s.velocityX) == s
      && FullOrStopped(r.positionX - s.positionX, dx, r.velocityX, s.velocityX)
  {
    var s1 := MoveX(ls, s, PIXEL);
    MoveXEffect(ls, s, PIXEL);
    var r := IntegrateX(ls, s1, dx - PIXEL);
    assert IntegrateX(ls, s, dx) == r;
    FullOrStoppedAfterStep(r.positionX - s1.positionX, dx - PIXEL, r.velocityX, s.velocityX, PIXEL);
  }

  lemma {:induction false} IntegrateXLeft(ls: seq<L.LayerState>, s: EntityState, dx: int)
    requires dx <= -PIXEL && CanMoveLeft(ls, s)
    requires var s1 := MoveX(ls, s, -PIXEL); var r := IntegrateX(ls, s1, dx + PIXEL);
      r.(positionX := s1.positionX, positionY := s1.positionY, velocityX := s1.velocityX) == s1
      && FullOrStopped(r.positionX - s1.positionX, dx + PIXEL, r.velocityX, s1.velocityX)
    ensures var r := IntegrateX(ls, s, dx);
      r.(positionX := s.positionX, positionY := s.positionY, velocityX := s.velocityX) == s
      && FullOrStopped(r.positionX - s.positionX, dx, r.velocityX, s.velocityX)
  {
    var s1 := MoveX(ls, s, -PIXEL);
    MoveXEffect(ls, s, -PIXEL);
    var r := IntegrateX(ls, s1, dx + PIXEL);
    assert IntegrateX(ls, s, dx) == r;
    FullOrStoppedAfterStep(r.positionX - s1.positionX, dx + PIXEL, r.velocityX, s.velocityX, -PIXEL);
  }

  lemma {:induction false} IntegrateXRest(ls: seq<L.LayerState>, s: EntityState, dx: int)
    requires -PIXEL < dx < PIXEL
    ensures var r := IntegrateX(ls, s, dx);
      r.(positionX := s.positionX, positionY := s.positionY, velocityX := s.velocityX) == s
      && FullOrStopped(r.positionX - s.positionX, dx, r.velocityX, s.velocityX)
  {
    MoveXEffect(ls, s, dx);
    if dx != 0 {
      StoppedAtOnce(dx, s.velocityX);
    }
  }

  lemma {:induction false} IntegrateXEffectRight(ls: seq<L.LayerState>, s: EntityState, dx: int)
    requires dx >= 0
    ensures var r := IntegrateX(ls, s, dx);
      r.(positionX := s.positionX, positionY := s.positionY, velocityX := s.velocityX) == s
      && FullOrStopped(r.positionX - s.positionX, dx, r.velocityX, s.velocityX)
    decreases dx
  {
    if dx >= PIXEL {
      if CanMoveRight(ls, s) {
        IntegrateXEffectRight(ls, MoveX(ls, s, PIXEL), dx - PIXEL);
        IntegrateXRight(ls, s, dx);
      } else {
        StoppedAtOnce(dx, s.velocityX);
      }
    } else {
      IntegrateXRest(ls, s, dx);
    }
  }

  lemma {:induction false} IntegrateXEffectLeft(ls: seq<L.LayerState>, s: EntityState, dx: int)
    requires dx <= 0
    ensures var r := IntegrateX(ls, s, dx);
      r.(positionX := s.positionX, positionY := s.positionY, velocityX := s.velocityX) == s
      && FullOrStopped(r.positionX - s.positionX, dx, r.velocityX, s.velocityX)
    decreases -dx
  {
    if dx <= -PIXEL {
      if CanMoveLeft(ls, s) {
        IntegrateXEffectLeft(ls, MoveX(ls, s, -PIXEL), dx + PIXEL);
        IntegrateXLeft(ls, s, dx);
      } else {
        StoppedAtOnce(dx, s.velocityX);
      }
    } else {
      IntegrateXRest(ls, s, dx);
    }
  }

  lemma IntegrateXEffect(ls: seq<L.LayerState>, s: EntityState, dx: int)
    ensures var r := IntegrateX(ls, s, dx);
      r.(positionX := s.positionX, positionY := s.positionY, velocityX := s.velocityX) == s
      && FullOrStopped(r.positionX - s.positionX, dx, r.velocityX, s.velocityX)
  {
    if dx >= 0 {
      IntegrateXEffectRight(ls, s, dx);
    } else {
      IntegrateXEffectLeft(ls, s, dx);
    }
  }

  lemma {:induction false} IntegrateYEffect(ls: seq<L.LayerState>, s: EntityState, dy: int)
    ensures var r := IntegrateY(ls, s, dy);
      r.(positionY := s.positionY, velocityY := s.velocityY) == s
      && FullOrStopped(r.positionY - s.positionY, dy, r.velocityY, s.velocityY)
    decreases if dy < 0 then -dy else dy
  {
    if dy >= PIXEL {
      if CanMoveDown(ls, s) {
        var s1 := ShiftY(s, PIXEL);
        IntegrateYEffect(ls, s1, dy - PIXEL);
        var r := IntegrateY(ls, s1, dy - PIXEL);
        assert IntegrateY(ls, s, dy) == r;
        FullOrStoppedAfterStep(r.positionY - s1.positionY, dy - PIXEL, r.velocityY, s.velocityY, PIXEL);
      } else {
        StoppedAtOnce(dy, s.velocityY);
      }
    } else if dy <= -PIXEL {
      if CanMoveUp(ls, s) {
        var s1 := ShiftY(s, -PIXEL);
        IntegrateYEffect(ls, s1, dy + PIXEL);
        var r := IntegrateY(ls, s1, dy + PIXEL);
        assert IntegrateY(ls, s, dy) == r;
        FullOrStoppedAfterStep(r.positionY - s1.positionY, dy + PIXEL, r.velocityY, s.velocityY, -PIXEL);
      } else {
        StoppedAtOnce(dy, s.velocityY);
      }
    } else if dy != 0 {
      StoppedAtOnce(dy, s.velocityY);
    }
  }

  /**
   * updateEntityMotionX: the x velocity is afterwards unchanged or exactly 0,
   * and it is 0 (from non-zero) exactly when the entity did not cover its
   * whole velocity, because a pixel step or the crossing remainder was
   * blocked. Nothing but the position and the x velocity changes.
   */
  lemma MotionXVelocity(ls: seq<L.LayerState>, s: EntityState)
    ensures var r := MotionX(ls, s);
      (r.velocityX == s.velocityX || r.velocityX == 0)
      && (s.velocityX != 0 ==> (r.velocityX == 0 <==> r.positionX != s.positionX + s.velocityX))
      && (s.velocityX == 0 ==> r == s)
      && r.(positionX := s.positionX, positionY := s.positionY, velocityX := s.velocityX) == s
  {
    IntegrateXEffect(ls, s, s.velocityX);
  }

  /** updateEntityMotionY, likewise; it changes only the y position and the y velocity. */
  lemma MotionYVelocity(ls: seq<L.LayerState>, s: EntityState)
    ensures var r := MotionY(ls, s);
      (r.velocityY == s.velocityY || r.velocityY == 0)
      && (s.velocityY != 0 ==> (r.velocityY == 0 <==> r.positionY != s.positionY + s.velocityY))
      && (s.velocityY == 0 ==> r == s)
      && r.(positionY := s.positionY, velocityY := s.velocityY) == s
  {
    IntegrateYEffect(ls, s, s.velocityY);
  }

  // Moving layers.

  /** A layer moved by (dx, dy) units. */
  function Shifted(l: L.LayerState, dx: int, dy: int): L.LayerState
  {
    l.(positionX := l.positionX + dx, positionY := l.positionY + dy)
  }

  /** The level's layers with layer li moved by (dx, dy) units. */
  function ShiftLayer(ls: seq<L.LayerState>, li: nat, dx: int, dy: int): (r: seq<L.LayerState>)
    requires li < |ls|
    ensures |r| == |ls|
  {
    ls[li := Shifted(ls[li], dx, dy)]
  }

  /** Moving a layer twice moves it by the sum. */
  lemma ShiftLayerTwice(ls: seq<L.LayerState>, li: nat, a: int, b: int, c: int, d: int)
    requires li < |ls|
    ensures ShiftLayer(ShiftLayer(ls, li, a, b), li, c, d) == ShiftLayer(ls, li, a + c, b + d)
  {
  }

  /** Moving a layer and then back again leaves the layers as they were. */
  lemma ShiftLayerBack(ls: seq<L.LayerState>, li: nat, a: int, b: int, c: int, d: int)
    requires li < |ls| && a + c == 0 && b + d == 0
    ensures ShiftLayer(ShiftLayer(ls, li, a, b), li, c, d) == ls
  {
  }

  /** Moving a layer vertically and then setting its y position back leaves the layers as they were. */
  lemma ShiftLayerRestoreY(ls: seq<L.LayerState>, li: nat, dy: int)
    requires li < |ls|
    ensures var moved := ShiftLayer(ls, li, 0, dy);
      moved[li := moved[li].(positionY := ls[li].positionY)] == ls
  {
  }

  /** Moving a layer by nothing leaves the layers as they are. */
  lemma ShiftLayerZero(ls: seq<L.LayerState>, li: nat)
    requires li < |ls|
    ensures ShiftLayer(ls, li, 0, 0) == ls
  {
  }

  /**
   * moveLayerLeft, first pass, for one entity: one standing on the layer
   * goes one pixel left if it can (no slope handling); one whose right side
   * touches the layer's left edge is pushed by moveEntityLeft.
   */
  function CarryLeft(ls: seq<L.LayerState>, li: nat, s: EntityState): EntityState
    requires li < |ls|
  {
    if StandingOn(ls[li], s) then (if CanMoveLeft(ls, s) then ShiftX(s, -PIXEL) else s)
    else if BlocksRight(ls[li], s) then MoveLeftStep(ls, s).entity
    else s
  }

  /** moveLayerRight, first pass, for one entity. */
  function CarryRight(ls: seq<L.LayerState>, li: nat, s: EntityState): EntityState
    requires li < |ls|
  {
    if StandingOn(ls[li], s) then (if CanMoveRight(ls, s) then ShiftX(s, PIXEL) else s)
    else if BlocksLeft(ls[li], s) then MoveRightStep(ls, s).entity
    else s
  }

  /** The second pass of a horizontal layer move: an entity in a slope of the moved layer steps up. */
  function SlopeCatch(ls: seq<L.LayerState>, li: nat, s: EntityState): EntityState
    requires li < |ls|
  {
    if L.HasSlopeCollision(ls[li], GetCenterX(s), GetBottom(s)) then MoveUpStep(ls, s).entity else s
  }

  /** moveLayerLeft for one entity: both passes, the second after the layer moved. */
  function LayerLeftStep(ls: seq<L.LayerState>, li: nat, s: EntityState): EntityState
    requires li < |ls|
  {
    SlopeCatch(ShiftLayer(ls, li, -PIXEL, 0), li, CarryLeft(ls, li, s))
  }

  /** moveLayerRight for one entity. */
  function LayerRightStep(ls: seq<L.LayerState>, li: nat, s: EntityState): EntityState
    requires li < |ls|
  {
    SlopeCatch(ShiftLayer(ls, li, PIXEL, 0), li, CarryRight(ls, li, s))
  }

  /** moveLayerUp for one entity: one standing on the layer moves up if it can. */
  function LayerUpStep(ls: seq<L.LayerState>, li: nat, s: EntityState): EntityState
    requires li < |ls|
  {
    if StandingOn(ls[li], s) then MoveUpStep(ls, s).entity else s
  }

  /**
   * moveLayerDown for one entity: one standing on the layer moves down, with
   * the layer nudged one pixel down out of its way; one whose top touches
   * the layer's bottom edge is pushed down if it can move.
   */
  function LayerDownStep(ls: seq<L.LayerState>, li: nat, s: EntityState): EntityState
    requires li < |ls|
  {
    if StandingOn(ls[li], s) then MoveDownStep(ShiftLayer(ls, li, 0, PIXEL), s).entity
    else if BlocksUp(ls[li], s) then MoveDownStep(ls, s).entity
    else s
  }

  /**
   * A standing entity rides a layer moving left by exactly one pixel when
   * it is free to, with no slope following, and stays otherwise; an entity
   * the layer neither carries nor pushes is left where it is in the first pass.
   */
  lemma CarryLeftEffect(ls: seq<L.LayerState>, li: nat, s: EntityState)
    requires li < |ls|
    ensures StandingOn(ls[li], s) ==>
      CarryLeft(ls, li, s) == if CanMoveLeft(ls, s) then s.(positionX := s.positionX - PIXEL) else s
    ensures !StandingOn(ls[li], s) && !BlocksRight(ls[li], s) ==> CarryLeft(ls, li, s) == s
    ensures !StandingOn(ls[li], s) && BlocksRight(ls[li], s) && CanMoveLeft(ls, s) ==>
      CarryLeft(ls, li, s).positionX == s.positionX - PIXEL
    ensures !StandingOn(ls[li], s) && BlocksRight(ls[li], s) && !CanMoveLeft(ls, s) ==> CarryLeft(ls, li, s) == s
  {
    MoveXEffect(ls, s, -PIXEL);
  }

  /** The mirror image for a layer moving right. */
  lemma CarryRightEffect(ls: seq<L.LayerState>, li: nat, s: EntityState)
    requires li < |ls|
    ensures StandingOn(ls[li], s) ==>
      CarryRight(ls, li, s) == if CanMoveRight(ls, s) then s.(positionX := s.positionX + PIXEL) else s
    ensures !StandingOn(ls[li], s) && !BlocksLeft(ls[li], s) ==> CarryRight(ls, li, s) == s
    ensures !StandingOn(ls[li], s) && BlocksLeft(ls[li], s) && CanMoveRight(ls, s) ==>
      CarryRight(ls, li, s).positionX == s.positionX + PIXEL
    ensures !StandingOn(ls[li], s) && BlocksLeft(ls[li], s) && !CanMoveRight(ls, s) ==> CarryRight(ls, li, s) == s
  {
    MoveXEffect(ls, s, PIXEL);
  }

  /**
   * The slope pass of a horizontal layer move lifts an entity by exactly one
   * pixel when its bottom centre pixel is in the layer's slope and it can
   * move up, and leaves it where it is otherwise.
   */
  lemma SlopeCatchEffect(ls: seq<L.LayerState>, li: nat, s: EntityState)
    requires li < |ls|
    ensures var caught := L.HasSlopeCollision(ls[li], GetCenterX(s), GetBottom(s));
      SlopeCatch(ls, li, s) == if caught && CanMoveUp(ls, s) then s.(positionY := s.positionY - PIXEL) else s
  {
  }

  /**
   * A layer moving up lifts an entity standing on it by exactly one pixel
   * when nothing above is in the way; every other entity stays.
   */
  lemma LayerUpEffect(ls: seq<L.LayerState>, li: nat, s: EntityState)
    requires li < |ls|
    ensures LayerUpStep(ls, li, s) ==
      if StandingOn(ls[li], s) && CanMoveUp(ls, s) then s.(positionY := s.positionY - PIXEL) else s
  {
  }

  /**
   * A layer moving down lowers an entity by exactly one pixel or leaves it
   * where it is: a standing entity goes down when it can with the layer
   * already one pixel lower, an entity whose top touches the layer's
   * bottom edge goes down when it can, and every other entity stays.
   */
  lemma LayerDownEffect(ls: seq<L.LayerState>, li: nat, s: EntityState)
    requires li < |ls|
    ensures var down := s.(positionY := s.positionY + PIXEL);
      && (StandingOn(ls[li], s) ==>
            LayerDownStep(ls, li, s) == if CanMoveDown(ShiftLayer(ls, li, 0, PIXEL), s) then down else s)
      && (!StandingOn(ls[li], s) && BlocksUp(ls[li], s) ==>
            LayerDownStep(ls, li, s) == if CanMoveDown(ls, s) then down else s)
      && (!StandingOn(ls[li], s) && !BlocksUp(ls[li], s) ==> LayerDownStep(ls, li, s) == s)
    ensures LayerDownStep(ls, li, s) == s || LayerDownStep(ls, li, s) == s.(positionY := s.positionY + PIXEL)
  {
  }

  /**
   * updateLayerMotionX's body from the point where dx units remain, for the
   * level's layers and one entity: whole pixels through moveLayerRight or
   * moveLayerLeft, then the rest; when the rest crosses a pixel boundary the
   * layer takes a whole pixel step (carrying the entity) and is put back
   * before the rest is added. The moving layer is never blocked.
   */
  function LayerMotionX(ls: seq<L.LayerState>, li: nat, s: EntityState, dx: int): (r: (seq<L.LayerState>, EntityState))
    requires li < |ls|
    ensures r.0 == ShiftLayer(ls, li, dx, 0)
    decreases if dx < 0 then -dx else dx
  {
    if dx >= PIXEL then
      LayerMotionX(ShiftLayer(ls, li, PIXEL, 0), li, LayerRightStep(ls, li, s), dx - PIXEL)
    else if dx > 0 then
      var l := ls[li];
      var s1 := if Util.PixelFloor(l.positionX + dx) == Util.PixelFloor(l.positionX + PIXEL)
                then LayerRightStep(ls, li, s) else s;
      (ShiftLayer(ls, li, dx, 0), s1)
    else if dx <= -PIXEL then
      LayerMotionX(ShiftLayer(ls, li, -PIXEL, 0), li, LayerLeftStep(ls, li, s), dx + PIXEL)
    else if dx < 0 then
      var l := ls[li];
      var s1 := if Util.PixelFloor(l.positionX + dx) == Util.PixelFloor(l.positionX - PIXEL)
                then LayerLeftStep(ls, li, s) else s;
      (ShiftLayer(ls, li, dx, 0), s1)
    else (ls, s)
  }

  /** updateLayerMotionY's body from the point where dy units remain. */
  function LayerMotionY(ls: seq<L.LayerState>, li: nat, s: EntityState, dy: int): (r: (seq<L.LayerState>, EntityState))
    requires li < |ls|
    ensures r.0 == ShiftLayer(ls, li, 0, dy)
    decreases if dy < 0 then -dy else dy
  {
    if dy >= PIXEL then
      LayerMotionY(ShiftLayer(ls, li, 0, PIXEL), li, LayerDownStep(ls, li, s), dy - PIXEL)
    else if dy > 0 then
      var l := ls[li];
      var s1 := if Util.PixelFloor(l.positionY + dy) == Util.PixelFloor(l.positionY + PIXEL)
                then LayerDownStep(ls, li, s) else s;
      (ShiftLayer(ls, li, 0, dy), s1)
    else if dy <= -PIXEL then
      LayerMotionY(ShiftLayer(ls, li, 0, -PIXEL), li, LayerUpStep(ls, li, s), dy + PIXEL)
    else if dy < 0 then
      var l := ls[li];
      var s1 := if Util.PixelFloor(l.positionY + dy) == Util.PixelFloor(l.positionY - PIXEL)
                then LayerUpStep(ls, li, s) else s;
      (ShiftLayer(ls, li, 0, dy), s1)
    else (ls, s)
  }

  // The same, for every entity of the level at once.

  /** The first pass of moveLayerLeft, for every entity of the level at once. */
  function CarryLeftAll(ls: seq<L.LayerState>, li: nat, ss: seq<EntityState>): (r: seq<EntityState>)
    requires li < |ls|
    ensures |r| == |ss| && forall k :: 0 <= k < |ss| ==> r[k] == CarryLeft(ls, li, ss[k])
  {
    seq(|ss|, k requires 0 <= k < |ss| => CarryLeft(ls, li, ss[k]))
  }

  /** The first pass of moveLayerRight, for every entity of the level at once. */
  function CarryRightAll(ls: seq<L.LayerState>, li: nat, ss: seq<EntityState>): (r: seq<EntityState>)
    requires li < |ls|
    ensures |r| == |ss| && forall k :: 0 <= k < |ss| ==> r[k] == CarryRight(ls, li, ss[k])
  {
    seq(|ss|, k requires 0 <= k < |ss| => CarryRight(ls, li, ss[k]))
  }

  /** The slope pass of moveLayerLeft and moveLayerRight, for every entity at once. */
  function SlopeCatchAll(ls: seq<L.LayerState>, li: nat, ss: seq<EntityState>): (r: seq<EntityState>)
    requires li < |ls|
    ensures |r| == |ss| && forall k :: 0 <= k < |ss| ==> r[k] == SlopeCatch(ls, li, ss[k])
  {
    seq(|ss|, k requires 0 <= k < |ss| => SlopeCatch(ls, li, ss[k]))
  }

  function LeftStepAll(ls: seq<L.LayerState>, li: nat, ss: seq<EntityState>): (r: seq<EntityState>)
    requires li < |ls|
    ensures |r| == |ss| && forall k :: 0 <= k < |ss| ==> r[k] == LayerLeftStep(ls, li, ss[k])
  {
    seq(|ss|, k requires 0 <= k < |ss| => LayerLeftStep(ls, li, ss[k]))
  }

  function RightStepAll(ls: seq<L.LayerState>, li: nat, ss: seq<EntityState>): (r: seq<EntityState>)
    requires li < |ls|
    ensures |r| == |ss| && forall k :: 0 <= k < |ss| ==> r[k] == LayerRightStep(ls, li, ss[k])
  {
    seq(|ss|, k requires 0 <= k < |ss| => LayerRightStep(ls, li, ss[k]))
  }

  function UpStepAll(ls: seq<L.LayerState>, li: nat, ss: seq<EntityState>): (r: seq<EntityState>)
    requires li < |ls|
    ensures |r| == |ss| && forall k :: 0 <= k < |ss| ==> r[k] == LayerUpStep(ls, li, ss[k])
  {
    seq(|ss|, k requires 0 <= k < |ss| => LayerUpStep(ls, li, ss[k]))
  }

  function DownStepAll(ls: seq<L.LayerState>, li: nat, ss: seq<EntityState>): (r: seq<EntityState>)
    requires li < |ls|
    ensures |r| == |ss| && forall k :: 0 <= k < |ss| ==> r[k] == LayerDownStep(ls, li, ss[k])
  {
    seq(|ss|, k requires 0 <= k < |ss| => LayerDownStep(ls, li, ss[k]))
  }

  function MotionXAll(ls: seq<L.LayerState>, li: nat, ss: seq<EntityState>, dx: int): (r: seq<EntityState>)
    requires li < |ls|
    ensures |r| == |ss| && forall k :: 0 <= k < |ss| ==> r[k] == LayerMotionX(ls, li, ss[k], dx).1
  {
    seq(|ss|, k requires 0 <= k < |ss| => LayerMotionX(ls, li, ss[k], dx).1)
  }

  function MotionYAll(ls: seq<L.LayerState>, li: nat, ss: seq<EntityState>, dy: int): (r: seq<EntityState>)
    requires li < |ls|
    ensures |r| == |ss| && forall k :: 0 <= k < |ss| ==> r[k] == LayerMotionY(ls, li, ss[k], dy).1
  {
    seq(|ss|, k requires 0 <= k < |ss| => LayerMotionY(ls, li, ss[k], dy).1)
  }

  /** moveLayerLeft over all entities: the carry pass, then the layer moves, then the slope pass. */
  lemma LeftStepAllPasses(ls: seq<L.LayerState>, li: nat, ss: seq<EntityState>)
    requires li < |ls|
    ensures LeftStepAll(ls, li, ss) == SlopeCatchAll(ShiftLayer(ls, li, -PIXEL, 0), li, CarryLeftAll(ls, li, ss))
  {
  }

  /** moveLayerRight over all entities: the carry pass, then the layer moves, then the slope pass. */
  lemma RightStepAllPasses(ls: seq<L.LayerState>, li: nat, ss: seq<EntityState>)
    requires li < |ls|
    ensures RightStepAll(ls, li, ss) == SlopeCatchAll(ShiftLayer(ls, li, PIXEL, 0), li, CarryRightAll(ls, li, ss))
  {
  }

  /** One whole pixel of updateLayerMotionX, for all entities. */
  lemma MotionXAllPixel(ls: seq<L.LayerState>, li: nat, ss: seq<EntityState>, dx: int)
    requires li < |ls|
    ensures dx >= PIXEL ==>
      MotionXAll(ls, li, ss, dx) == MotionXAll(ShiftLayer(ls, li, PIXEL, 0), li, RightStepAll(ls, li, ss), dx - PIXEL)
    ensures dx <= -PIXEL ==>
      MotionXAll(ls, li, ss, dx) == MotionXAll(ShiftLayer(ls, li, -PIXEL, 0), li, LeftStepAll(ls, li, ss), dx + PIXEL)
  {
  }

  /** One whole pixel of updateLayerMotionY, for all entities. */
  lemma MotionYAllPixel(ls: seq<L.LayerState>, li: nat, ss: seq<EntityState>, dy: int)
    requires li < |ls|
    ensures dy >= PIXEL ==>
      MotionYAll(ls, li, ss, dy) == MotionYAll(ShiftLayer(ls, li, 0, PIXEL), li, DownStepAll(ls, li, ss), dy - PIXEL)
    ensures dy <= -PIXEL ==>
      MotionYAll(ls, li, ss, dy) == MotionYAll(ShiftLayer(ls, li, 0, -PIXEL), li, UpStepAll(ls, li, ss), dy + PIXEL)
  {
  }

  /** The fractional rest of updateLayerMotionX, for all entities. */
  lemma MotionXAllRest(ls: seq<L.LayerState>, li: nat, ss: seq<EntityState>, dx: int)
    requires li < |ls|
    ensures 0 < dx < PIXEL ==>
      MotionXAll(ls, li, ss, dx) ==
      (if Util.PixelFloor(ls[li].positionX + dx) == Util.PixelFloor(ls[li].positionX + PIXEL)
       then RightStepAll(ls, li, ss) else ss)
    ensures -PIXEL < dx < 0 ==>
      MotionXAll(ls, li, ss, dx) ==
      (if Util.PixelFloor(ls[li].positionX + dx) == Util.PixelFloor(ls[li].positionX - PIXEL)
       then LeftStepAll(ls, li, ss) else ss)
    ensures MotionXAll(ls, li, ss, 0) == ss
  {
  }

  /** The fractional rest of updateLayerMotionY, for all entities. */
  lemma MotionYAllRest(ls: seq<L.LayerState>, li: nat, ss: seq<EntityState>, dy: int)
    requires li < |ls|
    ensures 0 < dy < PIXEL ==>
      MotionYAll(ls, li, ss, dy) ==
      (if Util.PixelFloor(ls[li].positionY + dy) == Util.PixelFloor(ls[li].positionY + PIXEL)
       then DownStepAll(ls, li, ss) else ss)
    ensures -PIXEL < dy < 0 ==>
      MotionYAll(ls, li, ss, dy) ==
      (if Util.PixelFloor(ls[li].positionY + dy) == Util.PixelFloor(ls[li].positionY - PIXEL)
       then UpStepAll(ls, li, ss) else ss)
    ensures MotionYAll(ls, li, ss, 0) == ss
  {
  }

  /**
   * updateLayerMotionX on the whole level from the point where dx units
   * remain: the layers and every entity, pixel step by pixel step.
   */
  function LevelMotionX(ls: seq<L.LayerState>, li: nat, ss: seq<EntityState>, dx: int): (r: (seq<L.LayerState>, seq<EntityState>))
    requires li < |ls|
    ensures |r.0| == |ls|
    decreases if dx < 0 then -dx else dx
  {
    if dx >= PIXEL then
      LevelMotionX(ShiftLayer(ls, li, PIXEL, 0), li, RightStepAll(ls, li, ss), dx - PIXEL)
    else if dx > 0 then
      var l := ls[li];
      (ShiftLayer(ls, li, dx, 0),
       if Util.PixelFloor(l.positionX + dx) == Util.PixelFloor(l.positionX + PIXEL) then RightStepAll(ls, li, ss) else ss)
    else if dx <= -PIXEL then
      LevelMotionX(ShiftLayer(ls, li, -PIXEL, 0), li, LeftStepAll(ls, li, ss), dx + PIXEL)
    else if dx < 0 then
      var l := ls[li];
      (ShiftLayer(ls, li, dx, 0),
       if Util.PixelFloor(l.positionX + dx) == Util.PixelFloor(l.positionX - PIXEL) then LeftStepAll(ls, li, ss) else ss)
    else (ls, ss)
  }

  /** One whole pixel of a layer's motion over the whole level. */
  lemma LevelMotionXPixel(ls: seq<L.LayerState>, li: nat, ss: seq<EntityState>, dx: int)
    requires li < |ls|
    ensures dx >= PIXEL ==>
      LevelMotionX(ls, li, ss, dx) == LevelMotionX(ShiftLayer(ls, li, PIXEL, 0), li, RightStepAll(ls, li, ss), dx - PIXEL)
    ensures dx <= -PIXEL ==>
      LevelMotionX(ls, li, ss, dx) == LevelMotionX(ShiftLayer(ls, li, -PIXEL, 0), li, LeftStepAll(ls, li, ss), dx + PIXEL)
  {
  }

  /**
   * The fractional rest of a layer's motion over the whole level, when it
   * reaches the next pixel: the layer moves by the rest and every entity
   * takes one whole pixel step.
   */
  lemma LevelMotionXCrossing(ls: seq<L.LayerState>, li: nat, ss: seq<EntityState>, dx: int)
    requires li < |ls|
    ensures 0 < dx < PIXEL && Util.PixelFloor(ls[li].positionX + dx) == Util.PixelFloor(ls[li].positionX + PIXEL) ==>
      LevelMotionX(ls, li, ss, dx) == (ShiftLayer(ls, li, dx, 0), RightStepAll(ls, li, ss))
    ensures -PIXEL < dx < 0 && Util.PixelFloor(ls[li].positionX + dx) == Util.PixelFloor(ls[li].positionX - PIXEL) ==>
      LevelMotionX(ls, li, ss, dx) == (ShiftLayer(ls, li, dx, 0), LeftStepAll(ls, li, ss))
  {
  }

  /** The fractional rest of a layer's motion over the whole level, within the current pixel. */
  lemma LevelMotionXSlide(ls: seq<L.LayerState>, li: nat, ss: seq<EntityState>, dx: int)
    requires li < |ls|
    ensures 0 < dx < PIXEL && Util.PixelFloor(ls[li].positionX + dx) != Util.PixelFloor(ls[li].positionX + PIXEL) ==>
      LevelMotionX(ls, li, ss, dx) == (ShiftLayer(ls, li, dx, 0), ss)
    ensures -PIXEL < dx < 0 && Util.PixelFloor(ls[li].positionX + dx) != Util.PixelFloor(ls[li].positionX - PIXEL) ==>
      LevelMotionX(ls, li, ss, dx) == (ShiftLayer(ls, li, dx, 0), ss)
  {
  }


  /**
   * A layer's motion over the whole level moves that layer by exactly dx
   * and moves each entity as if it were alone in the level.
   */
  lemma {:induction false} LevelMotionXEach(ls: seq<L.LayerState>, li: nat, ss: seq<EntityState>, dx: int)
    requires li < |ls|
    ensures LevelMotionX(ls, li, ss, dx) == (ShiftLayer(ls, li, dx, 0), MotionXAll(ls, li, ss, dx))
    decreases if dx < 0 then -dx else dx
  {
    if dx >= PIXEL {
      LevelMotionXEach(ShiftLayer(ls, li, PIXEL, 0), li, RightStepAll(ls, li, ss), dx - PIXEL);
      ShiftLayerTwice(ls, li, PIXEL, 0, dx - PIXEL, 0);
      MotionXAllPixel(ls, li, ss, dx);
    } else if dx <= -PIXEL {
      LevelMotionXEach(ShiftLayer(ls, li, -PIXEL, 0), li, LeftStepAll(ls, li, ss), dx + PIXEL);
      ShiftLayerTwice(ls, li, -PIXEL, 0, dx + PIXEL, 0);
      MotionXAllPixel(ls, li, ss, dx);
    } else {
      MotionXAllRest(ls, li, ss, dx);
      ShiftLayerZero(ls, li);
    }
  }

  /**
   * updateLayerMotionY on the whole level from the point where dy units
   * remain: the layers and every entity, pixel step by pixel step.
   */
  function LevelMotionY(ls: seq<L.LayerState>, li: nat, ss: seq<EntityState>, dy: int): (r: (seq<L.LayerState>, seq<EntityState>))
    requires li < |ls|
    ensures |r.0| == |ls|
    decreases if dy < 0 then -dy else dy
  {
    if dy >= PIXEL then
      LevelMotionY(ShiftLayer(ls, li, 0, PIXEL), li, DownStepAll(ls, li, ss), dy - PIXEL)
    else if dy > 0 then
      var l := ls[li];
      (ShiftLayer(ls, li, 0, dy),
       if Util.PixelFloor(l.positionY + dy) == Util.PixelFloor(l.positionY + PIXEL) then DownStepAll(ls, li, ss) else ss)
    else if dy <= -PIXEL then
      LevelMotionY(ShiftLayer(ls, li, 0, -PIXEL), li, UpStepAll(ls, li, ss), dy + PIXEL)
    else if dy < 0 then
      var l := ls[li];
      (ShiftLayer(ls, li, 0, dy),
       if Util.PixelFloor(l.positionY + dy) == Util.PixelFloor(l.positionY - PIXEL) then UpStepAll(ls, li, ss) else ss)
    else (ls, ss)
  }

  /** One whole pixel of a layer's motion over the whole level. */
  lemma LevelMotionYPixel(ls: seq<L.LayerState>, li: nat, ss: seq<EntityState>, dy: int)
    requires li < |ls|
    ensures dy >= PIXEL ==>
      LevelMotionY(ls, li, ss, dy) == LevelMotionY(ShiftLayer(ls, li, 0, PIXEL), li, DownStepAll(ls, li, ss), dy - PIXEL)
    ensures dy <= -PIXEL ==>
      LevelMotionY(ls, li, ss, dy) == LevelMotionY(ShiftLayer(ls, li, 0, -PIXEL), li, UpStepAll(ls, li, ss), dy + PIXEL)
  {
  }

  /**
   * The fractional rest of a layer's motion over the whole level, when it
   * reaches the next pixel: the layer moves by the rest and every entity
   * takes one whole pixel step.
   */
  lemma LevelMotionYCrossing(ls: seq<L.LayerState>, li: nat, ss: seq<EntityState>, dy: int)
    requires li < |ls|
    ensures 0 < dy < PIXEL && Util.PixelFloor(ls[li].positionY + dy) == Util.PixelFloor(ls[li].positionY + PIXEL) ==>
      LevelMotionY(ls, li, ss, dy) == (ShiftLayer(ls, li, 0, dy), DownStepAll(ls, li, ss))
    ensures -PIXEL < dy < 0 && Util.PixelFloor(ls[li].positionY + dy) == Util.PixelFloor(ls[li].positionY - PIXEL) ==>
      LevelMotionY(ls, li, ss, dy) == (ShiftLayer(ls, li, 0, dy), UpStepAll(ls, li, ss))
  {
  }

  /** The fractional rest of a layer's motion over the whole level, within the current pixel. */
  lemma LevelMotionYSlide(ls: seq<L.LayerState>, li: nat, ss: seq<EntityState>, dy: int)
    requires li < |ls|
    ensures 0 < dy < PIXEL && Util.PixelFloor(ls[li].positionY + dy) != Util.PixelFloor(ls[li].positionY + PIXEL) ==>
      LevelMotionY(ls, li, ss, dy) == (ShiftLayer(ls, li, 0, dy), ss)
    ensures -PIXEL < dy < 0 && Util.PixelFloor(ls[li].positionY + dy) != Util.PixelFloor(ls[li].positionY - PIXEL) ==>
      LevelMotionY(ls, li, ss, dy) == (ShiftLayer(ls, li, 0, dy), ss)
  {
  }


  /**
   * A layer's motion over the whole level moves that layer by exactly dy
   * and moves each entity as if it were alone in the level.
   */
  lemma {:induction false} LevelMotionYEach(ls: seq<L.LayerState>, li: nat, ss: seq<EntityState>, dy: int)
    requires li < |ls|
    ensures LevelMotionY(ls, li, ss, dy) == (ShiftLayer(ls, li, 0, dy), MotionYAll(ls, li, ss, dy))
    decreases if dy < 0 then -dy else dy
  {
    if dy >= PIXEL {
      LevelMotionYEach(ShiftLayer(ls, li, 0, PIXEL), li, DownStepAll(ls, li, ss), dy - PIXEL);
      ShiftLayerTwice(ls, li, 0, PIXEL, 0, dy - PIXEL);
      MotionYAllPixel(ls, li, ss, dy);
    } else if dy <= -PIXEL {
      LevelMotionYEach(ShiftLayer(ls, li, 0, -PIXEL), li, UpStepAll(ls, li, ss), dy + PIXEL);
      ShiftLayerTwice(ls, li, 0, -PIXEL, 0, dy + PIXEL);
      MotionYAllPixel(ls, li, ss, dy);
    } else {
      MotionYAllRest(ls, li, ss, dy);
      ShiftLayerZero(ls, li);
    }
  }

  /** updateLayer: updateLayerMotionX by the layer's x velocity, then Y by its y velocity. */
  function LayerUpdate(ls: seq<L.LayerState>, li: nat, s: EntityState): (r: (seq<L.LayerState>, EntityState))
    requires li < |ls|
    ensures r.0 == ShiftLayer(ls, li, ls[li].velocityX, ls[li].velocityY)
  {
    var x := LayerMotionX(ls, li, s, ls[li].velocityX);
    LayerMotionY(x.0, li, x.1, x.0[li].velocityY)
  }

  /** The layers from index i on each run updateLayer, in order. */
  function LayersFrom(ls: seq<L.LayerState>, i: nat, s: EntityState): (r: (seq<L.LayerState>, EntityState))
    ensures |r.0| == |ls|
    ensures forall j :: 0 <= j < |ls| ==>
      r.0[j] == if j < i then ls[j] else Shifted(ls[j], ls[j].velocityX, ls[j].velocityY)
    decreases |ls| - i
  {
    if i >= |ls| then (ls, s)
    else
      var u := LayerUpdate(ls, i, s);
      LayersFrom(u.0, i + 1, u.1)
  }

  /** Every layer moved by its own velocity. */
  function MovedLayers(ls: seq<L.LayerState>): (r: seq<L.LayerState>)
    ensures |r| == |ls|
  {
    seq(|ls|, j requires 0 <= j < |ls| => Shifted(ls[j], ls[j].velocityX, ls[j].velocityY))
  }

  /**
   * Layers are never blocked: the layer pass of a level update moves every
   * layer by exactly its velocity, whatever entity rides along, and keeps
   * its velocity and its cells.
   */
  lemma LayersMoveByVelocity(ls: seq<L.LayerState>, s: EntityState)
    ensures LayersFrom(ls, 0, s).0 == MovedLayers(ls)
    ensures forall j :: 0 <= j < |ls| ==>
      var l := MovedLayers(ls)[j];
      l.positionX == ls[j].positionX + ls[j].velocityX && l.positionY == ls[j].positionY + ls[j].velocityY
      && l.velocityX == ls[j].velocityX && l.velocityY == ls[j].velocityY && l.cells == ls[j].cells
  {
  }

  /** updateLayer on the whole level. */
  function LevelLayerUpdate(ls: seq<L.LayerState>, li: nat, ss: seq<EntityState>): (r: (seq<L.LayerState>, seq<EntityState>))
    requires li < |ls|
    ensures |r.0| == |ls|
  {
    var x := LevelMotionX(ls, li, ss, ls[li].velocityX);
    LevelMotionY(x.0, li, x.1, x.0[li].velocityY)
  }

  /** The layer pass of Level::update on the whole level, from layer i on. */
  function LevelLayersFrom(ls: seq<L.LayerState>, i: nat, ss: seq<EntityState>): (r: (seq<L.LayerState>, seq<EntityState>))
    ensures |r.0| == |ls|
    decreases |ls| - i
  {
    if i >= |ls| then (ls, ss)
    else
      var u := LevelLayerUpdate(ls, i, ss);
      LevelLayersFrom(u.0, i + 1, u.1)
  }

  /** updateLayer moves each entity as if it were alone in the level. */
  lemma LevelLayerUpdateEach(ls: seq<L.LayerState>, li: nat, ss: seq<EntityState>)
    requires li < |ls|
    ensures var u := LevelLayerUpdate(ls, li, ss);
      u.0 == ShiftLayer(ls, li, ls[li].velocityX, ls[li].velocityY) && |u.1| == |ss|
      && forall k :: 0 <= k < |ss| ==> u.1[k] == LayerUpdate(ls, li, ss[k]).1
  {
    var x := LevelMotionX(ls, li, ss, ls[li].velocityX);
    LevelMotionXEach(ls, li, ss, ls[li].velocityX);
    LevelMotionYEach(x.0, li, x.1, x.0[li].velocityY);
    ShiftLayerTwice(ls, li, ls[li].velocityX, 0, 0, ls[li].velocityY);
  }

  /**
   * The layer pass moves every layer by its velocity and each entity as the
   * one-entity model says: entities never influence one another.
   */
  lemma {:induction false} LevelLayersFromEach(ls: seq<L.LayerState>, i: nat, ss: seq<EntityState>)
    ensures var u := LevelLayersFrom(ls, i, ss);
      |u.1| == |ss| && forall k :: 0 <= k < |ss| ==> u.1[k] == LayersFrom(ls, i, ss[k]).1
    ensures forall s :: LevelLayersFrom(ls, i, ss).0 == LayersFrom(ls, i, s).0
    decreases |ls| - i
  {
    if i < |ls| {
      var u := LevelLayerUpdate(ls, i, ss);
      LevelLayerUpdateEach(ls, i, ss);
      LevelLayersFromEach(u.0, i + 1, u.1);
    }
  }

  /** One step of the layer pass: updateLayer on layer i, then the layers after it. */
  lemma LevelLayersFromStep(ls: seq<L.LayerState>, i: nat, ss: seq<EntityState>)
    requires i < |ls|
    ensures var u := LevelLayerUpdate(ls, i, ss);
      LevelLayersFrom(u.0, i + 1, u.1) == LevelLayersFrom(ls, i, ss)
  {
  }
}
