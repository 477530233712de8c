/**
 * The player's physics constants (source/level/entities/Player.hpp), each
 * written in the source as a hexadecimal physics value: 0xABCD is A tiles,
 * B pixels, C sixteenths and D 256ths of a pixel. In units of 1/256 pixel
 * each constant is its literal's value, as the lemmas below prove.
 */
module PlayerConstants {

  import opened Util

  const MAX_WALKING_SPEED: int := 0x0180
  const MAX_RUNNING_SPEED: int := 0x0280

  const RUN_ACCELERATION: int := 0x000e
  const STOP_DECELERATION: int := 0x000e
  const SKID_DECELERATION: int := 0x0020

  const JUMP_VELOCITY_1: int := 0x0370
  const JUMP_VELOCITY_2: int := 0x0390
  const JUMP_VELOCITY_3: int := 0x03b0

  const JUMP_VELOCITY_THRESHOLD_2: int := 0x0100
  const JUMP_VELOCITY_THRESHOLD_3: int := 0x0200

  const JUMP_GRAVITY_1: int := 0x0010
  const JUMP_GRAVITY_2: int := 0x0050

  const JUMP_GRAVITY_THRESHOLD_2: int := -0x0200

  const MAX_DOWNWARD_VELOCITY: int := 0x0450

  const MAX_UNDERWATER_WALKING_SPEED: int := 0x0100

  const UNDERWATER_GRAVITY_MOVING_UPWARD: int := 0x0010
  const UNDERWATER_GRAVITY_MOVING_DOWNWARD: int := 0x0008
  const UNDERWATER_GRAVITY_AT_SURFACE: int := 0x000c

  const MAX_UNDERWATER_DOWNWARD_VELOCITY: int := 0x0200

  const MAX_SWIMMING_SPEED: int := 0x0300

  const UNDERWATER_ACCELERATION: int := 0x0006
  const UNDERWATER_DECELERATION: int := 0x0002
  const UNDERWATER_TURN_ACCELERATION: int := 0x0008

  const UNDERWATER_JUMP_VELOCITY: int := 0x0330

  const SWIM_POWER_MODIFIER: int := 0x01f0
  const MAX_SWIM_POWER: int := 0x0000
  const MIN_SWIM_POWER: int := -0x0200

  /** The walking and running speed caps: 1.5 and 2.5 pixels per frame, each the physics value of its literal. */
  lemma SpeedValues()
    ensures MAX_WALKING_SPEED == PhysicsValueFromHex(0x0180)
    ensures MAX_RUNNING_SPEED == PhysicsValueFromHex(0x0280)
  {
    PhysicsValueExact(0x0180);
    PhysicsValueExact(0x0280);
  }

  /** The accelerations on the ground, each the physics value of its literal. */
  lemma GroundAccelerationValues()
    ensures RUN_ACCELERATION == PhysicsValueFromHex(0x000e)
    ensures STOP_DECELERATION == PhysicsValueFromHex(0x000e)
    ensures SKID_DECELERATION == PhysicsValueFromHex(0x0020)
  {
    PhysicsValueExact(0x000e);
    PhysicsValueExact(0x000e);
    PhysicsValueExact(0x0020);
  }

  /** The three jump velocities, each the physics value of its literal. */
  lemma JumpVelocityValues()
    ensures JUMP_VELOCITY_1 == PhysicsValueFromHex(0x0370)
    ensures JUMP_VELOCITY_2 == PhysicsValueFromHex(0x0390)
    ensures JUMP_VELOCITY_3 == PhysicsValueFromHex(0x03b0)
  {
    PhysicsValueExact(0x0370);
    PhysicsValueExact(0x0390);
    PhysicsValueExact(0x03b0);
  }

  /** The speed thresholds of the jump tiers and the gravity switch of a jump, each the physics value of its literal. */
  lemma JumpThresholdValues()
    ensures JUMP_VELOCITY_THRESHOLD_2 == PhysicsValueFromHex(0x0100)
    ensures JUMP_VELOCITY_THRESHOLD_3 == PhysicsValueFromHex(0x0200)
    ensures JUMP_GRAVITY_THRESHOLD_2 == -1 * PhysicsValueFromHex(0x0200)
  {
    PhysicsValueExact(0x0100);
    PhysicsValueExact(0x0200);
    PhysicsValueExact(0x0200);
  }

  /** The jump gravities and the fall speed cap, each the physics value of its literal. */
  lemma GravityValues()
    ensures JUMP_GRAVITY_1 == PhysicsValueFromHex(0x0010)
    ensures JUMP_GRAVITY_2 == PhysicsValueFromHex(0x0050)
    ensures MAX_DOWNWARD_VELOCITY == PhysicsValueFromHex(0x0450)
  {
    PhysicsValueExact(0x0010);
    PhysicsValueExact(0x0050);
    PhysicsValueExact(0x0450);
  }

  /** The three underwater gravities, each the physics value of its literal. */
  lemma UnderwaterGravityValues()
    ensures UNDERWATER_GRAVITY_MOVING_UPWARD == PhysicsValueFromHex(0x0010)
    ensures UNDERWATER_GRAVITY_MOVING_DOWNWARD == PhysicsValueFromHex(0x0008)
    ensures UNDERWATER_GRAVITY_AT_SURFACE == PhysicsValueFromHex(0x000c)
  {
    PhysicsValueExact(0x0010);
    PhysicsValueExact(0x0008);
    PhysicsValueExact(0x000c);
  }

  /** The underwater speed caps, each the physics value of its literal. */
  lemma UnderwaterSpeedValues()
    ensures MAX_UNDERWATER_WALKING_SPEED == PhysicsValueFromHex(0x0100)
    ensures MAX_UNDERWATER_DOWNWARD_VELOCITY == PhysicsValueFromHex(0x0200)
    ensures MAX_SWIMMING_SPEED == PhysicsValueFromHex(0x0300)
  {
    PhysicsValueExact(0x0100);
    PhysicsValueExact(0x0200);
    PhysicsValueExact(0x0300);
  }

  /** The swimming accelerations, each the physics value of its literal. */
  lemma SwimAccelerationValues()
    ensures UNDERWATER_ACCELERATION == PhysicsValueFromHex(0x0006)
    ensures UNDERWATER_DECELERATION == PhysicsValueFromHex(0x0002)
    ensures UNDERWATER_TURN_ACCELERATION == PhysicsValueFromHex(0x0008)
  {
    PhysicsValueExact(0x0006);
    PhysicsValueExact(0x0002);
    PhysicsValueExact(0x0008);
  }

  /** The underwater jump velocity and the swim stroke, each the physics value of its literal. */
  lemma SwimStrokeValues()
    ensures UNDERWATER_JUMP_VELOCITY == PhysicsValueFromHex(0x0330)
    ensures SWIM_POWER_MODIFIER == PhysicsValueFromHex(0x01f0)
  {
    PhysicsValueExact(0x0330);
    PhysicsValueExact(0x01f0);
  }

  /** The bounds of the swim power, each the physics value of its literal. */
  lemma SwimPowerValues()
    ensures MAX_SWIM_POWER == PhysicsValueFromHex(0x0000)
    ensures MIN_SWIM_POWER == -1 * PhysicsValueFromHex(0x0200)
  {
    PhysicsValueExact(0x0000);
    PhysicsValueExact(0x0200);
  }

  /**
   * The orderings the physics relies on: walking is slower than running and
   * underwater walking slower than swimming; the jump tiers and their speed
   * thresholds strictly increase; the swim bounds and gravities are ordered.
   */
  lemma ConstantOrder()
    ensures MAX_WALKING_SPEED < MAX_RUNNING_SPEED
    ensures MAX_UNDERWATER_WALKING_SPEED < MAX_SWIMMING_SPEED
    ensures JUMP_VELOCITY_1 < JUMP_VELOCITY_2 < JUMP_VELOCITY_3
    ensures JUMP_VELOCITY_THRESHOLD_2 < JUMP_VELOCITY_THRESHOLD_3
    ensures MIN_SWIM_POWER < MAX_SWIM_POWER == 0
    ensures JUMP_GRAVITY_THRESHOLD_2 < 0
    ensures JUMP_GRAVITY_1 < JUMP_GRAVITY_2
    ensures MAX_UNDERWATER_DOWNWARD_VELOCITY < MAX_DOWNWARD_VELOCITY
  {
  }
}
