/**
 * The player (source/level/entities/Player.cpp): the per-frame decision
 * tree over velocity and acceleration (walking, running, airborne,
 * swimming, the water surface) and the jump handler for button presses.
 *
 * The level the player is in is given as the values of its layers, and the
 * input manager as the set of buttons held down. `PlayerUpdate` and
 * `ButtonPress` are what the two handlers compute; the methods `OnUpdate`
 * and `OnButtonPress` run the handlers' statements on a player object and
 * are proved to compute them.
 */
module Players {

  import opened Util
  import opened PlayerConstants
  import opened Entities
  import opened Input
  import C = Collision
  import L = Layers

  /**
   * The facing decision: LEFT wins over RIGHT; with neither held the player
   * is stopping and keeps its direction.
   */
  function Facing(held: set<Button>, direction: int): (r: (int, bool))
    ensures Left in held ==> r == (-1, false)
    ensures Left !in held && Right in held ==> r == (1, false)
    ensures Left !in held && Right !in held ==> r == (direction, true)
  {
    if Left in held then (-1, false)
    else if Right in held then (1, false)
    else (direction, true)
  }

  /** Cap a speed: a velocity faster than `cap` either way becomes `cap` in its own direction. */
  function CapSpeed(v: int, cap: int): int
  {
    if Abs(v) > cap then cap * Sgn(v) else v
  }

  /**
   * With a non-negative cap the capped speed is at most the cap, the
   * direction is kept, a velocity within the cap is untouched, and capping
   * twice is capping once.
   */
  lemma CapSpeedBound(v: int, cap: int)
    requires cap >= 0
    ensures Abs(CapSpeed(v, cap)) <= cap
    ensures Abs(v) <= cap ==> CapSpeed(v, cap) == v
    ensures Abs(v) > cap ==> Abs(CapSpeed(v, cap)) == cap && (cap > 0 ==> (CapSpeed(v, cap) < 0 <==> v < 0))
    ensures CapSpeed(CapSpeed(v, cap), cap) == CapSpeed(v, cap)
  {
  }

  /**
   * The airborne cap as the source writes it, `fabs(v > cap)`: the absolute
   * value is taken of the comparison, so only a velocity above the cap (to
   * the right) is capped.
   */
  function AirCap(v: int, cap: int): int
  {
    if v > cap then cap * Sgn(v) else v
  }

  /**
   * The x acceleration decision. Stopping: decelerate against the motion,
   * or stand still outright once slower than the deceleration. Moving
   * against the velocity's sign: turn. Otherwise accelerate forward.
   * The result is the new (velocity, acceleration).
   */
  function Drive(v: int, stopping: bool, direction: int, decel: int, turn: int, accel: int): (r: (int, int))
  {
    if stopping then (if Abs(v) > decel then (v, -1 * Sgn(v) * decel) else (0, 0))
    else if direction != Sgn(v) then (v, direction * turn)
    else (v, direction * accel)
  }

  /**
   * Stopping with |v| <= decel zeroes both velocity and acceleration;
   * otherwise the velocity is kept and the acceleration is -sgn(v) * decel
   * when stopping, direction * turn when turning, and direction * accel.
   */
  lemma DriveRules(v: int, stopping: bool, direction: int, decel: int, turn: int, accel: int)
    requires decel >= 0
    ensures var r := Drive(v, stopping, direction, decel, turn, accel);
      (stopping && Abs(v) <= decel ==> r == (0, 0))
      && (stopping && Abs(v) > decel ==> r.0 == v && r.1 == -Sgn(v) * decel && (decel > 0 ==> (r.1 < 0 <==> v > 0)))
      && (!stopping && direction != Sgn(v) ==> r == (v, direction * turn))
      && (!stopping && direction == Sgn(v) ==> r == (v, direction * accel))
  {
  }

  /** The swim stroke: the y velocity less the stroke power, kept within [MIN_SWIM_POWER, MAX_SWIM_POWER]. */
  function SwimPower(vy: int): (p: int)
    ensures MIN_SWIM_POWER <= p <= MAX_SWIM_POWER
    ensures MIN_SWIM_POWER <= vy - SWIM_POWER_MODIFIER <= MAX_SWIM_POWER ==> p == vy - SWIM_POWER_MODIFIER
    ensures vy - SWIM_POWER_MODIFIER < MIN_SWIM_POWER ==> p == MIN_SWIM_POWER
    ensures vy - SWIM_POWER_MODIFIER > MAX_SWIM_POWER ==> p == MAX_SWIM_POWER
  {
    var swimPower := vy - SWIM_POWER_MODIFIER;
    if swimPower < MIN_SWIM_POWER then MIN_SWIM_POWER
    else if swimPower > MAX_SWIM_POWER then MAX_SWIM_POWER
    else swimPower
  }

  /** The jump speed for a running speed: three tiers over strict thresholds. */
  function JumpVelocity(speed: int): (v: int)
    ensures speed > JUMP_VELOCITY_THRESHOLD_3 ==> v == JUMP_VELOCITY_3
    ensures JUMP_VELOCITY_THRESHOLD_2 < speed <= JUMP_VELOCITY_THRESHOLD_3 ==> v == JUMP_VELOCITY_2
    ensures speed <= JUMP_VELOCITY_THRESHOLD_2 ==> v == JUMP_VELOCITY_1
  {
    if speed > JUMP_VELOCITY_THRESHOLD_3 then JUMP_VELOCITY_3
    else if speed > JUMP_VELOCITY_THRESHOLD_2 then JUMP_VELOCITY_2
    else JUMP_VELOCITY_1
  }

  /** Running faster never jumps lower. */
  lemma JumpVelocityMonotone(a: int, b: int)
    requires a <= b
    ensures JumpVelocity(a) <= JumpVelocity(b)
  {
    ConstantOrder();
  }

  /**
   * What the player asks the level each frame (Entity::isUnderwater,
   * Entity::isOnGround, Player::isAtSurfaceOfWater). Being at the surface
   * means being under water.
   */
  datatype Senses = Senses(underwater: bool, onGround: bool, atSurface: bool)

  function Sense(ls: seq<L.LayerState>, s: EntityState): (k: Senses)
    ensures k.atSurface ==> k.underwater
  {
    Senses(C.Underwater(ls, s), C.OnGround(ls, s), C.AtSurfaceOfWater(ls, s))
  }

  /** The senses depend only on where the player is, not on how it moves. */
  lemma SenseDependsOnPlace(ls: seq<L.LayerState>, s: EntityState, t: EntityState)
    requires C.SamePlace(s, t)
    ensures Sense(ls, s) == Sense(ls, t)
  {
    C.QueriesDependOnPlace(ls, s, t);
  }

  /** The A button: a swim stroke under water, a jump on the ground. */
  function Press(b: Button, k: Senses, s: EntityState): EntityState
  {
    if b != A then s
    else if k.underwater then s.(velocityY := SwimPower(s.velocityY))
    else if k.onGround then
      s.(velocityY := -1 * JumpVelocity(Abs(s.velocityX)), accelerationY := JUMP_GRAVITY_1)
    else s
  }

  /** onButtonPress in a level. */
  function ButtonPress(ls: seq<L.LayerState>, b: Button, s: EntityState): EntityState
  {
    Press(b, Sense(ls, s), s)
  }

  /**
   * A button other than A, or A in mid-air above water, changes nothing.
   * Under water, A is a swim stroke: only the y velocity changes, to the
   * clamped stroke. On the ground, A is a jump: the y velocity becomes the
   * upward jump speed of the x speed's tier, gravity becomes
   * JUMP_GRAVITY_1, and nothing of the x motion changes.
   */
  lemma PressEffect(b: Button, k: Senses, s: EntityState)
    ensures var r := Press(b, k, s);
      (b != A ==> r == s)
      && (b == A && !k.underwater && !k.onGround ==> r == s)
      && (b == A && k.underwater ==>
            r == s.(velocityY := r.velocityY)
            && r.velocityY == Clamp(s.velocityY - SWIM_POWER_MODIFIER, MIN_SWIM_POWER, MAX_SWIM_POWER))
      && (b == A && !k.underwater && k.onGround ==>
            r == s.(velocityY := r.velocityY, accelerationY := JUMP_GRAVITY_1)
            && r.velocityY in {-JUMP_VELOCITY_1, -JUMP_VELOCITY_2, -JUMP_VELOCITY_3}
            && (Abs(s.velocityX) > JUMP_VELOCITY_THRESHOLD_3 <==> r.velocityY == -JUMP_VELOCITY_3)
            && (Abs(s.velocityX) <= JUMP_VELOCITY_THRESHOLD_2 <==> r.velocityY == -JUMP_VELOCITY_1))
  {
    ConstantOrder();
  }

  /** A value limited to [lo, hi]. */
  function Clamp(x: int, lo: int, hi: int): int
  {
    if x < lo then lo else if x > hi then hi else x
  }

  /** onUpdate under water: the swimming and underwater-walking physics. */
  function UnderwaterPhysics(held: set<Button>, k: Senses, s: EntityState, direction: int, stopping: bool): EntityState
  {
    var cap := if k.onGround then MAX_UNDERWATER_WALKING_SPEED else MAX_SWIMMING_SPEED;
    var x := Drive(CapSpeed(s.velocityX, cap), stopping, direction,
                   UNDERWATER_DECELERATION, UNDERWATER_TURN_ACCELERATION, UNDERWATER_ACCELERATION);
    var vy1 := if k.atSurface && !s.wasAtSurfaceOfWaterLastFrame then
                 (if Up in held && A in held then -1 * UNDERWATER_JUMP_VELOCITY else 0)
               else s.velocityY;
    var vy := if vy1 > MAX_UNDERWATER_DOWNWARD_VELOCITY then MAX_UNDERWATER_DOWNWARD_VELOCITY else vy1;
    var ay := if k.atSurface then UNDERWATER_GRAVITY_AT_SURFACE
              else if vy < 0 then UNDERWATER_GRAVITY_MOVING_UPWARD
              else UNDERWATER_GRAVITY_MOVING_DOWNWARD;
    s.(directionSign := direction, velocityX := x.0, accelerationX := x.1,
       velocityY := vy, accelerationY := ay, wasAtSurfaceOfWaterLastFrame := k.atSurface)
  }

  /** onUpdate out of water: walking, running and airborne physics. */
  function LandPhysics(held: set<Button>, k: Senses, s: EntityState, direction: int, stopping: bool): EntityState
  {
    var cap := if B in held then MAX_RUNNING_SPEED else MAX_WALKING_SPEED;
    var vx := if k.onGround then CapSpeed(s.velocityX, cap) else AirCap(s.velocityX, s.maxAirVelocityX);
    var maxAir := if k.onGround then cap else s.maxAirVelocityX;
    var x := Drive(vx, stopping, direction, STOP_DECELERATION, SKID_DECELERATION, RUN_ACCELERATION);
    var vy := if s.velocityY > MAX_DOWNWARD_VELOCITY then MAX_DOWNWARD_VELOCITY else s.velocityY;
    var ay := if A in held && vy < JUMP_GRAVITY_THRESHOLD_2 then JUMP_GRAVITY_1 else JUMP_GRAVITY_2;
    s.(directionSign := direction, velocityX := x.0, accelerationX := x.1, maxAirVelocityX := maxAir,
       velocityY := vy, accelerationY := ay, wasAtSurfaceOfWaterLastFrame := false)
  }

  /** One frame of player physics: choose the facing, then apply water or land physics. */
  function Physics(held: set<Button>, k: Senses, s: EntityState): EntityState
  {
    var f := Facing(held, s.directionSign);
    if k.underwater then UnderwaterPhysics(held, k, s, f.0, f.1)
    else LandPhysics(held, k, s, f.0, f.1)
  }

  /** Player::onUpdate in a level. */
  function PlayerUpdate(ls: seq<L.LayerState>, held: set<Button>, s: EntityState): EntityState
  {
    Physics(held, Sense(ls, s), s)
  }

  /**
   * onUpdate never moves the player: it sets velocities, accelerations,
   * the facing, the air speed cap and the surface flag only.
   */
  lemma PhysicsKeepsPlace(held: set<Button>, k: Senses, s: EntityState)
    ensures C.SamePlace(Physics(held, k, s), s)
  {
  }

  /**
   * Facing after onUpdate: LEFT held means -1, else RIGHT held means 1,
   * else unchanged; so a facing in {-1, 1} stays in {-1, 1}.
   */
  lemma PhysicsDirection(held: set<Button>, k: Senses, s: EntityState)
    ensures var r := Physics(held, k, s);
      (Left in held ==> r.directionSign == -1)
      && (Left !in held && Right in held ==> r.directionSign == 1)
      && (Left !in held && Right !in held ==> r.directionSign == s.directionSign)
      && (s.directionSign in {-1, 1} ==> r.directionSign in {-1, 1})
  {
  }

  /**
   * The fall speed cap: under water the y velocity is at most
   * MAX_UNDERWATER_DOWNWARD_VELOCITY, elsewhere MAX_DOWNWARD_VELOCITY; the
   * surface flag records whether the player is under water at the surface.
   */
  lemma PhysicsVertical(held: set<Button>, k: Senses, s: EntityState)
    ensures var r := Physics(held, k, s);
      (k.underwater ==> r.velocityY <= MAX_UNDERWATER_DOWNWARD_VELOCITY)
      && (!k.underwater ==> r.velocityY <= MAX_DOWNWARD_VELOCITY)
      && r.wasAtSurfaceOfWaterLastFrame == (k.underwater && k.atSurface)
  {
  }

  /**
   * Reaching the surface: on the first frame at the surface the player
   * stops rising, unless UP and A are held, when it leaps out of the water;
   * on the frames after, its y velocity is only capped.
   */
  lemma PhysicsSurface(held: set<Button>, k: Senses, s: EntityState)
    requires k.underwater && k.atSurface
    ensures var r := Physics(held, k, s);
      r.accelerationY == UNDERWATER_GRAVITY_AT_SURFACE
      && (!s.wasAtSurfaceOfWaterLastFrame ==>
            r.velocityY == if Up in held && A in held then -UNDERWATER_JUMP_VELOCITY else 0)
      && (s.wasAtSurfaceOfWaterLastFrame ==>
            r.velocityY == if s.velocityY > MAX_UNDERWATER_DOWNWARD_VELOCITY then MAX_UNDERWATER_DOWNWARD_VELOCITY else s.velocityY)
  {
    ConstantOrder();
  }

  /**
   * Gravity away from the surface: under water it is the upward gravity
   * while rising and the downward one otherwise; on land it is the strong
   * jump gravity JUMP_GRAVITY_1 only while A is held and the player still
   * rises faster than JUMP_GRAVITY_THRESHOLD_2, else JUMP_GRAVITY_2.
   */
  lemma PhysicsGravity(held: set<Button>, k: Senses, s: EntityState)
    ensures var r := Physics(held, k, s);
      (k.underwater && !k.atSurface ==>
         r.accelerationY == if r.velocityY < 0 then UNDERWATER_GRAVITY_MOVING_UPWARD else UNDERWATER_GRAVITY_MOVING_DOWNWARD)
      && (!k.underwater ==>
         r.accelerationY == if A in held && r.velocityY < JUMP_GRAVITY_THRESHOLD_2 then JUMP_GRAVITY_1 else JUMP_GRAVITY_2)
  {
  }

  /**
   * On the ground, out of water: the x speed is at most the walking speed,
   * or the running speed while B is held, and that cap becomes the air
   * speed cap for the next jump.
   */
  lemma PhysicsGroundCap(held: set<Button>, k: Senses, s: EntityState)
    requires !k.underwater && k.onGround
    ensures var r := Physics(held, k, s);
      var cap := if B in held then MAX_RUNNING_SPEED else MAX_WALKING_SPEED;
      Abs(r.velocityX) <= cap && r.maxAirVelocityX == cap
  {
    var cap := if B in held then MAX_RUNNING_SPEED else MAX_WALKING_SPEED;
    CapSpeedBound(s.velocityX, cap);
  }

  /**
   * In the air, out of water: a rightward speed is held to the air cap, but
   * because the cap tests `fabs(v > cap)` a leftward velocity is never
   * capped: it is kept (or zeroed by the stop rule) however fast it is.
   */
  lemma PhysicsAirCap(held: set<Button>, k: Senses, s: EntityState)
    requires !k.underwater && !k.onGround && s.maxAirVelocityX >= 0
    ensures var r := Physics(held, k, s);
      r.velocityX <= s.maxAirVelocityX
      && r.maxAirVelocityX == s.maxAirVelocityX
      && (s.velocityX <= s.maxAirVelocityX ==> r.velocityX == s.velocityX || r.velocityX == 0)
  {
  }

  /** The air cap's gap: a player flying left at twice the walking speed keeps that speed. */
  lemma AirCapLeftwardGap(k: Senses, s: EntityState)
    requires !k.underwater && !k.onGround
    requires s.maxAirVelocityX == MAX_WALKING_SPEED && s.velocityX == -2 * MAX_WALKING_SPEED
    ensures Physics({Left}, k, s).velocityX == -2 * MAX_WALKING_SPEED
    ensures Abs(Physics({Left}, k, s).velocityX) > s.maxAirVelocityX
  {
  }

  /**
   * The x acceleration on land: stopping slower than STOP_DECELERATION
   * zeroes velocity and acceleration, faster it brakes by STOP_DECELERATION
   * against the motion; turning skids at SKID_DECELERATION, otherwise the
   * player accelerates at RUN_ACCELERATION in its facing direction. The rule
   * reads the velocity after the speed cap.
   */
  lemma PhysicsLandAcceleration(held: set<Button>, k: Senses, s: EntityState)
    requires !k.underwater
    ensures var r := Physics(held, k, s);
      var cap := if B in held then MAX_RUNNING_SPEED else MAX_WALKING_SPEED;
      var vx := if k.onGround then CapSpeed(s.velocityX, cap) else AirCap(s.velocityX, s.maxAirVelocityX);
      var stopping := Left !in held && Right !in held;
      (stopping && Abs(vx) <= STOP_DECELERATION ==> r.velocityX == 0 && r.accelerationX == 0)
      && (stopping && Abs(vx) > STOP_DECELERATION ==>
            r.velocityX == vx && r.accelerationX == -Sgn(vx) * STOP_DECELERATION)
      && (!stopping && r.directionSign != Sgn(vx) ==>
            r.velocityX == vx && r.accelerationX == r.directionSign * SKID_DECELERATION)
      && (!stopping && r.directionSign == Sgn(vx) ==>
            r.velocityX == vx && r.accelerationX == r.directionSign * RUN_ACCELERATION)
  {
  }

  /** The x acceleration under water, with the underwater constants and speed caps. */
  lemma PhysicsWaterAcceleration(held: set<Button>, k: Senses, s: EntityState)
    requires k.underwater
    ensures var r := Physics(held, k, s);
      var cap := if k.onGround then MAX_UNDERWATER_WALKING_SPEED else MAX_SWIMMING_SPEED;
      var vx := CapSpeed(s.velocityX, cap);
      var stopping := Left !in held && Right !in held;
      Abs(vx) <= cap
      && (stopping && Abs(vx) <= UNDERWATER_DECELERATION ==> r.velocityX == 0 && r.accelerationX == 0)
      && (stopping && Abs(vx) > UNDERWATER_DECELERATION ==>
            r.velocityX == vx && r.accelerationX == -Sgn(vx) * UNDERWATER_DECELERATION)
      && (!stopping && r.directionSign != Sgn(vx) ==>
            r.velocityX == vx && r.accelerationX == r.directionSign * UNDERWATER_TURN_ACCELERATION)
      && (!stopping && r.directionSign == Sgn(vx) ==>
            r.velocityX == vx && r.accelerationX == r.directionSign * UNDERWATER_ACCELERATION)
  {
    var cap := if k.onGround then MAX_UNDERWATER_WALKING_SPEED else MAX_SWIMMING_SPEED;
    CapSpeedBound(s.velocityX, cap);
  }

  /** Player::onButtonPress, run on a player object. */
  method OnButtonPress(e: Entity, ls: seq<L.LayerState>, buttonId: Button)
    requires e.isPlayer
    modifies e
    ensures e.State() == ButtonPress(ls, buttonId, old(e.State())) && e.level == old(e.level)
  {
    if buttonId == A {
      if Sense(ls, e.State()).underwater {
        var swimPower := e.velocityY - SWIM_POWER_MODIFIER;
        if swimPower < MIN_SWIM_POWER {
          swimPower := MIN_SWIM_POWER;
        } else if swimPower > MAX_SWIM_POWER {
          swimPower := MAX_SWIM_POWER;
        }
        e.velocityY := swimPower;
      } else if Sense(ls, e.State()).onGround {
        var velocityX := Abs(e.velocityX);
        if velocityX > JUMP_VELOCITY_THRESHOLD_3 {
          e.velocityY := -1 * JUMP_VELOCITY_3;
        } else if velocityX > JUMP_VELOCITY_THRESHOLD_2 {
          e.velocityY := -1 * JUMP_VELOCITY_2;
        } else {
          e.velocityY := -1 * JUMP_VELOCITY_1;
        }
        e.accelerationY := JUMP_GRAVITY_1;
      }
    }
  }

  /** Player::onUpdate, run on a player object. */
  method OnUpdate(e: Entity, ls: seq<L.LayerState>, held: set<Button>)
    requires e.isPlayer
    modifies e
    ensures e.State() == PlayerUpdate(ls, held, old(e.State())) && e.level == old(e.level)
  {
    ghost var s0 := e.State();
    // Facing: LEFT first, then RIGHT, else stopping
    var stopping := false;
    if Left in held {
      e.directionSign := -1;
    } else if Right in held {
      e.directionSign := 1;
    } else {
      stopping := true;
    }
    assert (e.directionSign, stopping) == Facing(held, s0.directionSign);

    var atSurfaceOfWaterThisFrame := false;
    SenseDependsOnPlace(ls, s0, e.State());
    if Sense(ls, e.State()).underwater {
      atSurfaceOfWaterThisFrame := UnderwaterUpdate(e, ls, held, stopping);
    } else {
      RegularUpdate(e, ls, held, stopping);
    }

    // Remember the surface state for the next frame
    e.wasAtSurfaceOfWaterLastFrame := atSurfaceOfWaterThisFrame;
  }

  /**
   * The underwater branch of Player::onUpdate, after the facing is chosen;
   * it reports whether the player is at the surface this frame.
   */
  method UnderwaterUpdate(e: Entity, ls: seq<L.LayerState>, held: set<Button>, stopping: bool)
    returns (atSurfaceOfWaterThisFrame: bool)
    modifies e
    ensures atSurfaceOfWaterThisFrame == Sense(ls, old(e.State())).atSurface
    ensures e.State() == UnderwaterPhysics(held, Sense(ls, old(e.State())), old(e.State()), old(e.directionSign), stopping)
                           .(wasAtSurfaceOfWaterLastFrame := old(e.wasAtSurfaceOfWaterLastFrame))
    ensures e.level == old(e.level)
  {
    ghost var s0 := e.State();
    ghost var k := Sense(ls, s0);
    atSurfaceOfWaterThisFrame := false;

    // Speed cap: underwater walking or swimming
    var maximumVelocityX;
    if Sense(ls, e.State()).onGround {
      maximumVelocityX := MAX_UNDERWATER_WALKING_SPEED;
    } else {
      maximumVelocityX := MAX_SWIMMING_SPEED;
    }
    if Abs(e.velocityX) > maximumVelocityX {
      e.velocityX := maximumVelocityX * Sgn(e.velocityX);
    }

    // Horizontal acceleration with the underwater constants
    DriveX(e, stopping, UNDERWATER_DECELERATION, UNDERWATER_TURN_ACCELERATION, UNDERWATER_ACCELERATION);

    SenseDependsOnPlace(ls, s0, e.State());
    if Sense(ls, e.State()).atSurface {
      atSurfaceOfWaterThisFrame := true;
      if !e.wasAtSurfaceOfWaterLastFrame {
        // Leap out of the water when UP is held, else stop at the surface
        if Up in held && A in held {
          e.velocityY := -1 * UNDERWATER_JUMP_VELOCITY;
        } else {
          e.velocityY := 0;
        }
      }
    }

    // Sinking speed cap
    if e.velocityY > MAX_UNDERWATER_DOWNWARD_VELOCITY {
      e.velocityY := MAX_UNDERWATER_DOWNWARD_VELOCITY;
    }

    // Gravity: at the surface, rising or sinking
    if atSurfaceOfWaterThisFrame {
      e.accelerationY := UNDERWATER_GRAVITY_AT_SURFACE;
    } else if e.velocityY < 0 {
      e.accelerationY := UNDERWATER_GRAVITY_MOVING_UPWARD;
    } else {
      e.accelerationY := UNDERWATER_GRAVITY_MOVING_DOWNWARD;
    }
  }

  /** The regular (out of water) branch of Player::onUpdate, after the facing is chosen. */
  method RegularUpdate(e: Entity, ls: seq<L.LayerState>, held: set<Button>, stopping: bool)
    modifies e
    ensures e.State() == LandPhysics(held, Sense(ls, old(e.State())), old(e.State()), old(e.directionSign), stopping)
                           .(wasAtSurfaceOfWaterLastFrame := old(e.wasAtSurfaceOfWaterLastFrame))
    ensures e.level == old(e.level)
  {
    ghost var s0 := e.State();
    if Sense(ls, e.State()).onGround {
      // Ground speed cap: walking, or running while B is held
      var maximumVelocityX := MAX_WALKING_SPEED;
      if B in held {
        maximumVelocityX := MAX_RUNNING_SPEED;
      }
      if Abs(e.velocityX) > maximumVelocityX {
        e.velocityX := maximumVelocityX * Sgn(e.velocityX);
      }
      // Store the momentum as the air speed cap for the next jump
      e.maxAirVelocityX := maximumVelocityX;
    } else {
      // Air speed cap: the comparison comes before the absolute value, so only rightward speed is capped
      if e.velocityX > e.maxAirVelocityX {
        e.velocityX := e.maxAirVelocityX * Sgn(e.velocityX);
      }
    }

    // Horizontal acceleration with the land constants
    DriveX(e, stopping, STOP_DECELERATION, SKID_DECELERATION, RUN_ACCELERATION);

    // Falling speed cap
    if e.velocityY > MAX_DOWNWARD_VELOCITY {
      e.velocityY := MAX_DOWNWARD_VELOCITY;
    }

    // Gravity: the weak jump gravity while A is held and still rising fast
    if A in held && e.velocityY < JUMP_GRAVITY_THRESHOLD_2 {
      e.accelerationY := JUMP_GRAVITY_1;
    } else {
      e.accelerationY := JUMP_GRAVITY_2;
    }
  }

  /**
   * The x acceleration decision of both branches of Player::onUpdate, with
   * the branch's deceleration, turning and forward accelerations.
   */
  method DriveX(e: Entity, stopping: bool, decel: int, turn: int, accel: int)
    modifies e
    ensures var x := Drive(old(e.velocityX), stopping, old(e.directionSign), decel, turn, accel);
      e.State() == old(e.State()).(velocityX := x.0, accelerationX := x.1)
    ensures e.level == old(e.level)
  {
    if stopping {
      if Abs(e.velocityX) > decel {
        e.accelerationX := -1 * Sgn(e.velocityX) * decel;
      } else {
        e.accelerationX := 0;
        e.velocityX := 0;
      }
    } else if e.directionSign != Sgn(e.velocityX) {
      e.accelerationX := e.directionSign * turn;
    } else {
      e.accelerationX := e.directionSign * accel;
    }
  }
}
