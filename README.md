# A tile platformer's collision and movement engine, in Dafny

This project models the core of a small C++ SDL2 platformer: its tile-based levels, how entities and the player move through them, the game-state stack, and the input layer that turns keyboard and joystick readings into button presses for listeners.

- **Blocks and layers** (`blocks.dfy`, `layers.dfy`). A block is a tile-sized rectangle with a collision type: solid, one-way top, water or a slope. A layer is a grid of blocks with a position and a velocity. It answers, per pixel, whether a top, bottom, left, right or slope edge is there.
- **Entities and the player** (`entities.dfy`, `player_constants.dfy`, `players.dfy`). An entity is a bounding box with position, velocity and acceleration. The player adds facing, jumping, swimming and speed caps. Its `onButtonPress` and `onUpdate` handlers are modelled as functions of the held buttons and of what the player senses: on the ground, under water, at the water surface.
- **The level** (`collision.dfy`, `levels.dfy`).
  - `collision.dfy` states the level's semantics as pure functions on values: the four movement checks, ground and water queries, one-pixel steps, slope following, the pixel-by-pixel integration of a velocity, and the layer movers that carry, push and catch entities.
  - `levels.dfy` holds the `Level` class. Its loops are proved against those functions, and `Update` is proved to move every layer by exactly its velocity and every entity exactly as its own frame on the moved layers says.
- **Game states** (`game_states.dfy`). A stack of states: the top one is drawn, the bottom one is updated, and popped states are kept dead until the next update.
- **Input** (`input.dfy`, `sdl2_input.dfy`). The listener list with its notifications, the instance slot, and the SDL2 manager's key, axis and button mappings. Once per frame the manager turns the readings into button states, and a button going from released to held is told to every listener, in order.

All positions and speeds are integers in 1/256 of a pixel (`Util.PIXEL`). The game's `PHYSICS_VALUE` literals are exactly such fixed-point values, so the model's arithmetic is exact.

## Model

| member | source | states |
|---|---|---|
| Util.Nibble | source/util/Util.hpp:17-20 | a masked and shifted hexadecimal digit lies in [0, 16) |
| Util.NibblesCompose | source/util/Util.hpp:15-21 | the four weighted digits add up to the low 16 bits of the argument |
| Util.PhysicsValueFromHex | source/util/Util.hpp:15-21 | in 1/256-pixel units the conversion is the argument's low 16 bits, so it lies in [0, 0x10000) |
| Util.PhysicsValueExact | source/util/Util.hpp:15-21 | for every literal in [0, 0xffff] the converted value times 256 is the literal |
| Util.PhysicsValueLowBits | source/util/Util.hpp:17-20 | arguments that agree in their low 16 bits convert to the same value |
| Util.PhysicsValueMonotone | source/util/Util.hpp:15-21 | on [0, 0xffff] the conversion is non-decreasing and its result lies in [0, 256) pixels |
| Util.Sgn | source/util/Util.hpp:28-32 | the sign is 1 exactly when the argument is at least 0, and -1 exactly when it is negative |
| Util.SgnNeverZero | source/util/Util.hpp:28-32 | the sign is never 0, and the sign of 0 is 1 |
| Util.SgnTimesAbs | source/util/Util.hpp:28-32 | sign times magnitude gives the argument back, for every integer |
| Blocks.NewBlock | source/level/Block.cpp:6-11 | a new block keeps its collision type and is one tile, 16 pixels, in each direction |
| Blocks.Geometry | source/level/Block.cpp:13-51 | left and x are the tile position times 16, top and y likewise; right and bottom are the last pixel inside the block, whose size is a whole number of tiles |
| Blocks.SetWidth | source/level/Block.cpp:110-113 | the width becomes the given number of tiles; type, position and height are unchanged |
| Blocks.SetHeight | source/level/Block.cpp:105-108 | the height becomes the given number of tiles; type, position and width are unchanged |
| Blocks.EdgeCollisions | source/level/Block.cpp:53-66 | left collides exactly on a solid block's column 0 and right on its last column, whatever the row; bottom exactly on a solid block's last row and top on row 0 of a solid block or platform, whatever the column (also lines 93-103) |
| Blocks.PassableBlocks | source/level/Block.cpp:53-103 | empty and water blocks report no edge and no slope; a platform reports only its top row; only slope blocks report slope collisions |
| Blocks.SquareSlope | source/level/Block.cpp:68-91 | on a square block a left slope collides exactly where y == x and a right slope exactly where y == width - 1 - x |
| Blocks.SlopeSinglePixel | source/level/Block.cpp:68-91 | in any column at most one row collides with the slope |
| Blocks.SlopeSurfaceExists | source/level/Block.cpp:68-91 | a slope block has a colliding row in every column |
| Blocks.UnitSlopeEnds | source/level/Block.cpp:72-87 | a one-tile left slope collides at (0, 0) and (15, 15); a right slope at (0, 15) and (15, 0) |
| Layers.PositionFloor | source/level/Layer.cpp:107-115 | the layer's pixel column and row are the floors of its position: the last whole pixel at or below it |
| Layers.GetBlock | source/level/Layer.cpp:65-81 | there is no block at a tile outside [0, width) x [0, height) |
| Layers.GetBlockInside | source/level/Layer.cpp:65-81 | inside the grid, the tile's cell is the one at index y * width + x, which is in range |
| Layers.GetBlockAt | source/level/Layer.cpp:83-105 | no block left of or above the layer's pixel position; otherwise the block of the tile holding the layer-relative pixel |
| Layers.GetBlockAtOutside | source/level/Layer.cpp:83-105 | no block right of or below the grid's last pixel either |
| Layers.CollisionQueries | source/level/Layer.cpp:117-195 | each of the five queries is false where there is no block, and is otherwise the block's own predicate at the pixel made relative to the layer and then to the block |
| Layers.TranslatedQueries | source/level/Layer.cpp:83-195 | a layer moved by whole pixels answers every query as before at the pixel moved with it |
| Layers.AddedBlock | source/level/Layer.cpp:38-63 | adding a block changes only the cells; width, height, position and velocity stay |
| Layers.AddedBlockCells | source/level/Layer.cpp:38-63 | adding no block changes nothing; otherwise every in-grid tile of the footprint holds the block with its tile position set to (x, y), and every other tile is unchanged |
| Layers.AddedBlockFound | source/level/Layer.cpp:38-63 | a one-tile block added at an in-grid tile is found by getBlockAt at each of that tile's 256 pixels (also lines 83-93) |
| Layers.Layer.constructor | source/level/Layer.cpp:8-17 | a new layer has width * height empty cells, position 0 and velocity 0 |
| Layers.Layer.AddBlock | source/level/Layer.cpp:38-63 | the two nested loops leave the grid as the footprint function describes; cells outside the grid are skipped |
| Layers.Layer.SetVelocityX | source/level/Layer.cpp:197-200 | only the x velocity changes, to the given value |
| Layers.Layer.SetVelocityY | source/level/Layer.cpp:202-205 | only the y velocity changes, to the given value |
| Layers.Layer.SetX | source/level/Layer.cpp:207-210 | only the x position changes, to the given value |
| Layers.Layer.SetY | source/level/Layer.cpp:212-215 | only the y position changes, to the given value |
| Input.Index | source/input/InputButton.hpp:7-21 | every button's integer value is below NUM_INPUT_BUTTONS = 7 |
| Input.FromIndex | source/input/InputButton.hpp:7-21 | each of the values 0 .. 6 names the button with that value |
| Input.IndexRoundTrip | source/input/InputButton.hpp:7-21 | buttons and their values correspond one to one |
| Input.PressCalls | source/input/InputManager.cpp:16-22 | a notification calls onButtonPress once per list entry, in list order, with the pressed button |
| Input.Without | source/input/InputManager.cpp:24-27 | list removal drops every occurrence of the listener and keeps every other entry |
| Input.WithoutConcat | source/input/InputManager.cpp:24-27 | removal works piecewise, so the remaining listeners keep their relative order |
| Input.WithoutAbsent | source/input/InputManager.cpp:24-27 | removing a listener that is not subscribed changes nothing |
| Input.InputManager.constructor | source/input/InputManager.hpp:63 | a new manager has no listeners |
| Input.InputManager.AddListener | source/input/InputManager.cpp:6-9 | the listener is appended at the end of the list |
| Input.InputManager.RemoveListener | source/input/InputManager.cpp:24-27 | the list becomes the old list with every occurrence of the listener removed |
| Input.InputManager.NotifyButtonPress | source/input/InputManager.cpp:16-22 | the loop makes exactly the calls PressCalls describes: one per entry, in list order |
| Input.InstanceSlot.constructor | source/input/InputManager.cpp:4 | the instance starts as null |
| Input.InstanceSlot.SetInstance | source/input/InputManager.cpp:29-32 | the slot holds the value just set |
| Input.InstanceSlot.GetInstance | source/input/InputManager.cpp:11-14 | getInstance returns the value last set |
| PlayerConstants.SpeedValues | source/level/entities/Player.hpp:19-20 | MAX_WALKING_SPEED and MAX_RUNNING_SPEED are the physics values of 0x0180 and 0x0280 |
| PlayerConstants.GroundAccelerationValues | source/level/entities/Player.hpp:22-24 | the run acceleration and the stop and skid decelerations are the physics values of their literals |
| PlayerConstants.JumpVelocityValues | source/level/entities/Player.hpp:26-28 | the three jump velocities are the physics values of their literals |
| PlayerConstants.JumpThresholdValues | source/level/entities/Player.hpp:30-31 | the two jump speed thresholds, and the negated gravity threshold, are the physics values of their literals (also line 36) |
| PlayerConstants.GravityValues | source/level/entities/Player.hpp:33-34 | the two jump gravities and the downward speed cap are the physics values of their literals (also line 38) |
| PlayerConstants.UnderwaterGravityValues | source/level/entities/Player.hpp:42-44 | the three underwater gravities are the physics values of their literals |
| PlayerConstants.UnderwaterSpeedValues | source/level/entities/Player.hpp:40 | the underwater walking, sinking and swimming caps are the physics values of their literals (also lines 46, 48) |
| PlayerConstants.SwimAccelerationValues | source/level/entities/Player.hpp:50-52 | the underwater acceleration, deceleration and turn acceleration are the physics values of their literals |
| PlayerConstants.SwimStrokeValues | source/level/entities/Player.hpp:54 | the underwater jump velocity and the swim power modifier are the physics values of their literals (also line 56) |
| PlayerConstants.SwimPowerValues | source/level/entities/Player.hpp:57-58 | MAX_SWIM_POWER is the value of 0x0000 and MIN_SWIM_POWER the negated value of 0x0200 |
| PlayerConstants.ConstantOrder | source/level/entities/Player.hpp:19-58 | walking is slower than running and underwater walking slower than swimming; the jump tiers and thresholds strictly increase; MIN_SWIM_POWER < MAX_SWIM_POWER = 0; the gravity threshold is negative; JUMP_GRAVITY_1 < JUMP_GRAVITY_2 |
| Entities.BoundingBox | source/level/Entity.cpp:19-57 | the box's top-left pixel is the floor of the position; right and bottom are the last pixel of a width x height box; the centre is half the size, rounded down, from the top-left (also lines 69-77) |
| Entities.ShiftedBox | source/level/Entity.cpp:69-77 | moving the position by whole pixels moves the box by as many pixels |
| Entities.NewEntity | source/level/Entity.cpp:6-17 | a new entity is 16 x 16 pixels, with position, velocity and acceleration all 0 |
| Entities.NewPlayer | source/level/entities/Player.cpp:8-13 | a new player is a new entity facing right, with the walking speed as its air speed cap, and not at a water surface |
| Entities.Entity.constructor | source/level/Entity.cpp:6-17 | a new plain entity has no level and the state of a new entity |
| Entities.Entity.Player | source/level/entities/Player.cpp:8-13 | a new player has no level and the state of a new player |
| Entities.Entity.SetAccelerationX | source/level/Entity.cpp:89-92 | only the x acceleration changes, to the given value |
| Entities.Entity.SetAccelerationY | source/level/Entity.cpp:94-97 | only the y acceleration changes, to the given value |
| Entities.Entity.SetVelocityX | source/level/Entity.cpp:99-102 | only the x velocity changes, to the given value |
| Entities.Entity.SetVelocityY | source/level/Entity.cpp:104-107 | only the y velocity changes, to the given value |
| Entities.Entity.SetX | source/level/Entity.cpp:109-112 | only the x position changes, to the given value |
| Entities.Entity.SetY | source/level/Entity.cpp:114-117 | only the y position changes, to the given value |
| Collision.OnGroundIffBlockedDown | source/level/Level.cpp:41-60 | an entity is on the ground exactly when it cannot move down: per layer, standing on it and being blocked by it look at the same pixels (also lines 115-143) |
| Collision.WaterIsPassable | source/level/Level.cpp:145-156 | a water block under a pixel makes the pixel under water, and that layer reports no edge or slope collision there |
| Collision.QueriesDependOnPlace | source/level/Level.cpp:41-156 | the movement checks and the ground, water and surface queries depend only on the entity's position and size |
| Collision.MoveUpStep | source/level/Level.cpp:188-196 | moveEntityUp moves exactly when canEntityMoveUp holds, by one pixel up, and otherwise leaves the entity unchanged |
| Collision.MoveDownStep | source/level/Level.cpp:158-166 | moveEntityDown moves exactly when canEntityMoveDown holds, by one pixel down, and otherwise leaves the entity unchanged |
| Collision.MoveLeftStep | source/level/Level.cpp:168-176 | moveEntityLeft moves exactly when canEntityMoveLeft holds, and otherwise leaves the entity unchanged |
| Collision.MoveRightStep | source/level/Level.cpp:178-186 | moveEntityRight moves exactly when canEntityMoveRight holds, and otherwise leaves the entity unchanged |
| Collision.MoveXEffect | source/level/Level.cpp:198-243 | moveEntityX changes the x position by exactly dx, and the y position by at most one pixel either way, only while standing on a layer; the one-pixel sink is taken with the downward check failing |
| Collision.MoveXInAir | source/level/Level.cpp:210-237 | off the ground no layer has a slope to follow, so moveEntityX only shifts |
| Collision.IntegrateXEffect | source/level/Level.cpp:457-525 | from any remaining dx, the motion either covers all of dx with the velocity kept, or stops a whole number of pixels short with the velocity 0; only the position and x velocity change |
| Collision.IntegrateYEffect | source/level/Level.cpp:527-595 | the same for the y motion: all of dy with the velocity kept, or stopped short with the velocity 0; only the y position and y velocity change |
| Collision.MotionXVelocity | source/level/Level.cpp:457-525 | after updateEntityMotionX the x velocity is unchanged or 0; from non-zero it is 0 exactly when the entity fell short of its velocity; a zero velocity changes nothing |
| Collision.MotionYVelocity | source/level/Level.cpp:527-595 | after updateEntityMotionY the y velocity is unchanged or 0; from non-zero it is 0 exactly when the entity fell short; only the y position and velocity change |
| Collision.CarryLeftEffect | source/level/Level.cpp:273-295 | a standing entity rides a layer moving left by exactly one pixel, with no slope handling, when it can move left; an entity neither standing nor touching stays; a touching entity that can move is pushed one pixel, and one that cannot stays |
| Collision.CarryRightEffect | source/level/Level.cpp:309-331 | the mirror image for a layer moving right: a standing entity rides exactly one pixel right when it can, with no slope handling; an entity neither standing nor touching stays; a touching entity is pushed one pixel when it can move and stays otherwise |
| Collision.SlopeCatchEffect | source/level/Level.cpp:298-306 | after a horizontal layer move, an entity whose bottom centre pixel is in the layer's slope goes up exactly one pixel when it can, and every other entity stays |
| Collision.LayerUpEffect | source/level/Level.cpp:345-356 | a layer moving up lifts an entity standing on it by exactly one pixel when nothing above is in the way, and every other entity stays |
| Collision.LayerDownEffect | source/level/Level.cpp:245-271 | a layer moving down lowers an entity by one pixel or not at all: a standing entity when it can move with the layer already one pixel lower, a touching one when it can move, and every other entity stays |
| Collision.LayerMotionX | source/level/Level.cpp:603-637 | for any remaining dx the layer ends moved by exactly dx: the temporary pixel step of the crossing rest is undone |
| Collision.LayerMotionY | source/level/Level.cpp:639-673 | for any remaining dy the layer ends moved by exactly dy |
| Collision.LevelMotionXEach | source/level/Level.cpp:603-637 | on the whole level, updateLayerMotionX moves its layer by exactly dx and each entity as if it were alone |
| Collision.LevelMotionYEach | source/level/Level.cpp:639-673 | on the whole level, updateLayerMotionY moves its layer by exactly dy and each entity as if it were alone |
| Collision.LayerUpdate | source/level/Level.cpp:597-601 | updateLayer moves its layer by exactly its velocity |
| Collision.LayersFrom | source/level/Level.cpp:432-438 | running updateLayer on the layers from index i on moves exactly those layers, each by its own velocity |
| Collision.LayersMoveByVelocity | source/level/Level.cpp:432-438 | layers are never blocked: the layer pass moves every layer by its velocity and keeps its velocity and cells, whatever entity rides along (also lines 597-673) |
| Collision.LevelLayerUpdateEach | source/level/Level.cpp:597-601 | on the whole level, updateLayer moves its layer by its velocity and each entity as if it were alone |
| Collision.LevelLayersFromEach | source/level/Level.cpp:432-438 | on the whole level, the layer pass moves each entity as the one-entity model says: entities never affect each other |
| Players.Facing | source/level/entities/Player.cpp:62-75 | LEFT held faces -1, else RIGHT held faces 1; with neither the player is stopping and keeps its facing |
| Players.CapSpeedBound | source/level/entities/Player.cpp:90-93 | a capped speed is at most the cap, keeps its direction, leaves a speed within the cap alone, and capping twice is capping once (also lines 165-168) |
| Players.DriveRules | source/level/entities/Player.cpp:96-115 | stopping slower than the deceleration zeroes velocity and acceleration; faster, it brakes against the motion; turning applies the turn value in the facing direction, else the forward one (also lines 183-202) |
| Players.SwimPower | source/level/entities/Player.cpp:27-36 | the stroke is the y velocity less SWIM_POWER_MODIFIER, clamped to [MIN_SWIM_POWER, MAX_SWIM_POWER] |
| Players.JumpVelocity | source/level/entities/Player.cpp:40-52 | the jump speed has three tiers over the strict x-speed thresholds |
| Players.JumpVelocityMonotone | source/level/entities/Player.cpp:40-52 | running faster never jumps lower |
| Players.Sense | source/level/entities/Player.cpp:15-18 | being at the water surface implies being under water |
| Players.SenseDependsOnPlace | source/level/entities/Player.cpp:15-18 | what the player senses depends only on where it is |
| Players.PressEffect | source/level/entities/Player.cpp:20-56 | a button other than A, or A in mid-air out of water, changes nothing; A under water changes only the y velocity, to the clamped stroke; A on the ground sets the tiered jump speed upward and JUMP_GRAVITY_1 and leaves the x motion alone |
| Players.PhysicsKeepsPlace | source/level/entities/Player.cpp:58-223 | onUpdate never moves the player |
| Players.PhysicsDirection | source/level/entities/Player.cpp:62-75 | the facing follows LEFT, then RIGHT, else stays, so it stays in {-1, 1} |
| Players.PhysicsVertical | source/level/entities/Player.cpp:117-119 | under water the y velocity ends at most MAX_UNDERWATER_DOWNWARD_VELOCITY, elsewhere at most MAX_DOWNWARD_VELOCITY; the surface flag is "under water and at the surface" (also lines 136-139, 205-208, 221-222) |
| Players.PhysicsSurface | source/level/entities/Player.cpp:117-133 | at the surface gravity is the surface gravity; on the first frame there the y velocity becomes the leap speed with UP and A held and 0 otherwise; later frames only cap it (also lines 142-145) |
| Players.PhysicsGravity | source/level/entities/Player.cpp:141-153 | away from the surface, underwater gravity depends on rising or not; on land JUMP_GRAVITY_1 applies only while A is held and the player rises faster than the threshold, else JUMP_GRAVITY_2 (also lines 210-218) |
| Players.PhysicsGroundCap | source/level/entities/Player.cpp:157-172 | on the ground out of water the x speed is at most the walking speed, or the running speed with B held, and that cap becomes the air speed cap |
| Players.PhysicsAirCap | source/level/entities/Player.cpp:173-180 | in the air only a rightward velocity above the air cap is clamped; the air cap is kept |
| Players.AirCapLeftwardGap | source/level/entities/Player.cpp:176-179 | a player flying left at twice the walking speed keeps that speed, above the air cap |
| Players.PhysicsLandAcceleration | source/level/entities/Player.cpp:182-202 | the out-of-water x acceleration rules with STOP_DECELERATION, SKID_DECELERATION and RUN_ACCELERATION, applied to the capped velocity |
| Players.PhysicsWaterAcceleration | source/level/entities/Player.cpp:80-115 | the underwater speed cap and x acceleration rules with the underwater constants |
| Players.OnButtonPress | source/level/entities/Player.cpp:20-56 | the handler's statements leave the player as the press function says |
| Players.OnUpdate | source/level/entities/Player.cpp:58-223 | the handler's statements leave the player as the frame function says |
| Players.UnderwaterUpdate | source/level/entities/Player.cpp:77-154 | the underwater branch computes the underwater physics and reports whether the player is at the surface |
| Players.RegularUpdate | source/level/entities/Player.cpp:155-219 | the out-of-water branch computes the land and air physics |
| Players.DriveX | source/level/entities/Player.cpp:95-115 | the x acceleration statements change only the x velocity and acceleration, as the drive rule says (also lines 182-202) |
| Levels.ViewsOf | source/level/Level.cpp:432-438 | the level's layers read as values, one per layer, in order |
| Levels.PlainEntityFrame | source/level/Level.cpp:447-455 | a plain entity's frame adds acceleration to velocity and then runs the x motion and the y motion; its onUpdate changes nothing |
| Levels.PlayerFrameMovesAsPlain | source/level/Level.cpp:447-455 | a player's onUpdate never moves it, so it ends where a plain entity in its state would |
| Levels.PlayerFlags | source/level/Level.cpp:440-444 | which of the level's entities are players, in order |
| Levels.EntityFrames | source/level/Level.cpp:440-444 | the entity pass frames every entity against the same layers, each on its own state |
| Levels.LevelFrames | source/level/Level.cpp:432-445 | one level update of each entity: the layer pass, then its own frame against the moved layers |
| Levels.LevelPasses | source/level/Level.cpp:432-445 | the layer pass moves the layers by their velocities, and composing it with the entity pass gives each entity's level frame |
| Levels.Level.States | source/level/Level.cpp:440-444 | the entities' states, one per entity, in order |
| Levels.Level.constructor | source/level/Level.cpp:11-13 | a level with no layers and no entities |
| Levels.Level.AddEntity | source/level/Level.cpp:30-34 | the entity belongs to this level and is appended; the layers and its own state stay |
| Levels.Level.AddLayer | source/level/Level.cpp:36-39 | the layer is appended; the entities stay |
| Levels.Level.CanEntityMoveDown | source/level/Level.cpp:41-60 | the loops answer the downward check on the level's layers |
| Levels.Level.CanEntityMoveLeft | source/level/Level.cpp:62-78 | the loops answer the leftward check |
| Levels.Level.CanEntityMoveRight | source/level/Level.cpp:80-96 | the loops answer the rightward check |
| Levels.Level.CanEntityMoveUp | source/level/Level.cpp:98-113 | the loops answer the upward check |
| Levels.Level.IsEntityStandingOnLayer | source/level/Level.cpp:127-143 | the loop answers whether the entity stands on the layer |
| Levels.Level.IsEntityOnGround | source/level/Level.cpp:115-125 | the loop answers whether the entity stands on some layer |
| Levels.Level.IsUnderwaterAt | source/level/Level.cpp:145-156 | the loop answers whether some layer has a water block at the pixel |
| Levels.Level.EntityIsOnGround | source/level/Entity.cpp:79-82 | the entity asks its level whether it is on the ground |
| Levels.Level.EntityIsUnderwater | source/level/Entity.cpp:84-87 | the entity asks its level whether its center pixel is under water |
| Levels.Level.SlopeOfLayer | source/level/Level.cpp:213-234 | the slope case one standing layer gives moveEntityX |
| Levels.Level.SlopeAhead | source/level/Level.cpp:210-235 | the first standing layer with a slope ahead decides the case |
| Levels.Level.MoveEntityX | source/level/Level.cpp:198-238 | the entity ends as the movement function says, which moves x by exactly dx; the layers stay |
| Levels.Level.MoveEntityY | source/level/Level.cpp:240-243 | the y position moves by dy and nothing else changes |
| Levels.Level.MoveEntityDown | source/level/Level.cpp:158-166 | the result and the new state are those of the one-pixel downward step |
| Levels.Level.MoveEntityUp | source/level/Level.cpp:188-196 | the result and the new state are those of the one-pixel upward step |
| Levels.Level.MoveEntityLeft | source/level/Level.cpp:168-176 | the result and the new state are those of the one-pixel leftward step |
| Levels.Level.MoveEntityRight | source/level/Level.cpp:178-186 | the result and the new state are those of the one-pixel rightward step |
| Levels.Level.MoveRightPixels | source/level/Level.cpp:461-472 | the whole-pixel loop either stops the entity, ending the motion, or leaves less than a pixel to go |
| Levels.Level.MoveLeftPixels | source/level/Level.cpp:493-504 | the same for leftward motion |
| Levels.Level.MoveRightRemainder | source/level/Level.cpp:473-492 | the leftover fraction is moved only when crossing a pixel edge is free; otherwise the velocity stops |
| Levels.Level.MoveLeftRemainder | source/level/Level.cpp:505-524 | the same for leftward motion |
| Levels.Level.UpdateEntityMotionX | source/level/Level.cpp:457-525 | the entity ends as the x motion function says: moved all the way with its velocity, or stopped short with velocity 0 |
| Levels.Level.MoveDownPixels | source/level/Level.cpp:531-542 | the whole-pixel loop downward either stops the entity or leaves less than a pixel to go |
| Levels.Level.MoveUpPixels | source/level/Level.cpp:563-574 | the same upward |
| Levels.Level.MoveDownRemainder | source/level/Level.cpp:543-562 | the leftover fraction downward is moved only when the pixel edge is free |
| Levels.Level.MoveUpRemainder | source/level/Level.cpp:575-594 | the same upward |
| Levels.Level.UpdateEntityMotionY | source/level/Level.cpp:527-595 | the entity ends as the y motion function says |
| Levels.Level.UpdateEntityMotion | source/level/Level.cpp:449-452 | velocity gains acceleration on each axis before the motion on that axis |
| Levels.Level.UpdateEntity | source/level/Level.cpp:447-455 | the entity ends as its whole frame says, onUpdate included |
| Levels.Level.IsEntityAtLeftEdge | source/level/Level.cpp:287-294 | the loop checks whether the layer's left edge touches the entity's right side |
| Levels.Level.IsEntityAtRightEdge | source/level/Level.cpp:323-330 | the loop checks whether the layer's right edge touches the entity's left side |
| Levels.Level.IsEntityAtBottomEdge | source/level/Level.cpp:261-268 | the loop checks whether the layer's bottom edge touches the entity's top |
| Levels.Level.CarryEntityLeft | source/level/Level.cpp:276-295 | one entity ends as the left carry says; the layers stay |
| Levels.Level.CarryEntityRight | source/level/Level.cpp:312-331 | one entity ends as the right carry says |
| Levels.Level.CatchEntityOnSlope | source/level/Level.cpp:298-306 | an entity shoved into the layer's slope takes one upward step |
| Levels.Level.LiftEntity | source/level/Level.cpp:348-354 | an entity standing on the rising layer takes one upward step |
| Levels.Level.LowerStandingEntity | source/level/Level.cpp:250-259 | a standing entity takes the downward step with the layer moved one pixel out of the way, and the layer is put back |
| Levels.Level.LowerEntity | source/level/Level.cpp:248-269 | one entity ends as the downward carry says; the layer is as before |
| Levels.Level.CarryEntitiesLeft | source/level/Level.cpp:276-295 | every entity is carried left, each on its own state |
| Levels.Level.CarryEntitiesRight | source/level/Level.cpp:312-331 | every entity is carried right |
| Levels.Level.CatchEntitiesOnSlopes | source/level/Level.cpp:300-306 | every entity is caught on the slope |
| Levels.Level.LiftEntities | source/level/Level.cpp:348-354 | every standing entity is lifted |
| Levels.Level.LowerEntities | source/level/Level.cpp:248-269 | every entity is carried down |
| Levels.Level.MoveLayerLeft | source/level/Level.cpp:273-307 | the layer moves one pixel left; the entities end as carried and then caught on the moved layer |
| Levels.Level.MoveLayerRight | source/level/Level.cpp:309-343 | the layer moves one pixel right; the entities end as carried and caught |
| Levels.Level.MoveLayerUp | source/level/Level.cpp:345-356 | the layer moves one pixel up; standing entities are lifted |
| Levels.Level.MoveLayerDown | source/level/Level.cpp:245-271 | the layer moves one pixel down; the entities are lowered |
| Levels.Level.LayerRightPixels | source/level/Level.cpp:607-611 | the whole-pixel loop leaves the same outcome to come with less than a pixel left |
| Levels.Level.LayerLeftPixels | source/level/Level.cpp:622-626 | the same leftward |
| Levels.Level.LayerRightRest | source/level/Level.cpp:612-621 | the leftover fraction, with the temporary pixel step and its undo when a pixel edge is crossed |
| Levels.Level.LayerLeftRest | source/level/Level.cpp:627-636 | the same leftward |
| Levels.Level.UpdateLayerMotionX | source/level/Level.cpp:603-637 | the layer and the entities end as the level's x motion says, which moves the layer by exactly its velocity |
| Levels.Level.LayerDownPixels | source/level/Level.cpp:643-647 | the whole-pixel loop downward |
| Levels.Level.LayerUpPixels | source/level/Level.cpp:658-662 | the whole-pixel loop upward |
| Levels.Level.LayerDownRest | source/level/Level.cpp:648-657 | the leftover fraction downward |
| Levels.Level.LayerUpRest | source/level/Level.cpp:663-672 | the leftover fraction upward |
| Levels.Level.UpdateLayerMotionY | source/level/Level.cpp:639-673 | the layer and the entities end as the level's y motion says, which moves the layer by exactly its velocity |
| Levels.Level.UpdateLayer | source/level/Level.cpp:597-601 | x motion then y motion, as the layer update says |
| Levels.Level.UpdateLayers | source/level/Level.cpp:434-438 | every layer is updated in order, as the layer pass says |
| Levels.Level.UpdateEntities | source/level/Level.cpp:440-444 | every entity takes its frame against the current layers |
| Levels.Level.Update | source/level/Level.cpp:432-445 | the layers end moved by their velocities and each entity ends as its level frame says |
| GameStates.Pop | source/game/GameStateManager.cpp:18-26 | an empty stack is left alone; otherwise the top state leaves the stack, which loses one state, and joins the dead set |
| GameStates.PopAfterPush | source/game/GameStateManager.cpp:18-32 | popping a state just pushed restores the stack and marks that state dead |
| GameStates.ChangeStateReplacesTop | source/game/GameState.cpp:9-13 | changeState keeps the depth and the states below, puts the new state on top and kills the old top |
| GameStates.GameState.constructor | source/game/GameState.cpp:4-7 | a new state belongs to no manager |
| GameStates.GameState.PopState | source/game/GameState.cpp:15-18 | the manager pops its top state |
| GameStates.GameState.PushState | source/game/GameState.cpp:20-23 | the manager pushes the state |
| GameStates.GameState.ChangeState | source/game/GameState.cpp:9-13 | the manager pops and then pushes the new state |
| GameStates.GameStateManager.constructor | source/game/GameStateManager.hpp:44-45 | no states and no dead states |
| GameStates.GameStateManager.PopState | source/game/GameStateManager.cpp:18-26 | the stack and dead set end as the pop says; a manager with no states is unchanged |
| GameStates.GameStateManager.PushState | source/game/GameStateManager.cpp:28-32 | the state joins this manager on top of the stack and the manager is running |
| GameStates.GameStateManager.Render | source/game/GameStateManager.cpp:34-41 | the top state draws, exactly when the manager is running |
| GameStates.GameStateManager.Dispatch | source/game/GameStateManager.cpp:43-49 | the bottom state is the one whose onUpdate runs, exactly when the manager is running; nothing changes |
| GameStates.GameStateManager.FinishUpdate | source/game/GameStateManager.cpp:51-56 | after the dispatched onUpdate has returned, the dead set is emptied, so states that onUpdate popped are gone too, and the stack is kept |
| Sdl2Input.JoystickAt | source/input/sdl2/Sdl2InputManager.cpp:41-48 | an index out of range gives no joystick; otherwise the joystick opened there, if opening succeeded |
| Sdl2Input.AxisMappingThreshold | source/input/sdl2/Sdl2InputManager.cpp:152-169 | an axis mapping is active exactly when its joystick exists and the axis is pushed strictly past 16384 in the mapping's direction; inside the dead zone it never is |
| Sdl2Input.MissingJoystickInactive | source/input/sdl2/Sdl2InputManager.cpp:152-179 | a joystick mapping whose joystick is missing never holds its button |
| Sdl2Input.EdgeCalls | source/input/sdl2/Sdl2InputManager.cpp:185-196 | with no button going from released to held, no listener is told anything |
| Sdl2Input.OneRisingEdge | source/input/sdl2/Sdl2InputManager.cpp:185-196 | exactly one button going from released to held tells each listener of that button once, in order |
| Sdl2Input.Sdl2InputManager.constructor | source/input/sdl2/Sdl2InputManager.cpp:7-31 | every button released, no shutdown request, no mappings, the opened joysticks kept in order and this manager installed as the instance |
| Sdl2Input.Sdl2InputManager.GetJoystick | source/input/sdl2/Sdl2InputManager.cpp:41-48 | the joystick at the index, bounds-checked |
| Sdl2Input.Sdl2InputManager.MapKey | source/input/sdl2/Sdl2InputManager.cpp:55-62 | a key mapping is appended; nothing else changes |
| Sdl2Input.Sdl2InputManager.MapJoystickAxis | source/input/sdl2/Sdl2InputManager.cpp:64-73 | an axis mapping is appended |
| Sdl2Input.Sdl2InputManager.MapJoystickButton | source/input/sdl2/Sdl2InputManager.cpp:75-83 | a joystick button mapping is appended |
| Sdl2Input.Sdl2InputManager.SetButtonPressed | source/input/sdl2/Sdl2InputManager.cpp:85-92 | the button is held afterwards; listeners are told only when it was released before |
| Sdl2Input.Sdl2InputManager.SetButtonReleased | source/input/sdl2/Sdl2InputManager.cpp:94-97 | the button is released and no one is told |
| Sdl2Input.Sdl2InputManager.ReadEvents | source/input/sdl2/Sdl2InputManager.cpp:108-130 | the shutdown flag is set exactly when it was set or some event is a quit or an Escape key press |
| Sdl2Input.Sdl2InputManager.PollMapping | source/input/sdl2/Sdl2InputManager.cpp:140-181 | the answer is whether the mapping is active this frame |
| Sdl2Input.Sdl2InputManager.PollMappings | source/input/sdl2/Sdl2InputManager.cpp:132-183 | a button's status is true exactly when some mapping for it is active |
| Sdl2Input.Sdl2InputManager.ApplyStatus | source/input/sdl2/Sdl2InputManager.cpp:185-196 | the button states become the statuses, and listeners are told of each button that went from released to held, in button order |
| Sdl2Input.Sdl2InputManager.Update | source/input/sdl2/Sdl2InputManager.cpp:104-197 | the shutdown flag as the events say, each button held exactly when some mapping for it is active, and a press told for each rising edge |

## Left out

- Rendering (`Level::render`, `GameStateManager::render` drawing, the video manager), `Main.cpp`, `Game` and the concrete game states: outside the engine; `Render` and `Dispatch` return the state they would call instead of calling its callbacks; `GameStateManager::update` is the pair `Dispatch`, then that state's onUpdate, then `FinishUpdate`.
- Destructors and `delete` of layers, entities and dead states: memory management has no counterpart in the model; emptying the dead set stands for it.
- SDL itself: polling events, reading the keyboard state and the joystick axes and buttons, and opening joysticks become parameters (a sequence of events, a `Readings` value, the sequence of opened joysticks); the keyboard state is the set of held scancodes.
- Floating point: positions and velocities are exact multiples of 1/256 pixel, so `float` rounding is not modelled; slope heights are computed with exact integer division, which matches `float` only for the dyadic slopes the game uses.
- Blocks are values inside a layer's grid, each placement a copy with its own position. In the source, `Layer::addBlock` writes the block's position on every call (`source/level/Layer.cpp:45-46`), so adding a `Block*` that is already placed moves it in every cell it already fills; that retroactive move is not modelled. The game's levels add a fresh block with each call.
- Blocks.SetWidth, Blocks.SetHeight: a block's width and height are at least one tile (16 pixels), so these refuse 0 and negative tile counts, and a layer's grid sizes are natural numbers; `Block::setWidth`/`setHeight` (`source/level/Block.cpp:105-113`) and `Layer::Layer` do not check these. The game's levels only use positive sizes.
- Levels.Level.AddEntity and Levels.Level.Valid ask that the level's entities are distinct objects, which the source's callers ensure by adding each entity once.
- Levels.Level.AddLayer and Levels.Level.LayersValid ask that the level's layers are distinct objects, so adding a layer that is already in the level is excluded; `Level::addLayer` (`source/level/Level.cpp:36-39`) accepts it, and such a layer would then be updated twice per frame (`source/level/Level.cpp:434-438`) and deleted twice by `~Level` (`source/level/Level.cpp:15-28`). The game adds each layer once.
- Listener calls are returned as a log of `Call` values instead of being made; what a listener does with a press is its own code.
- A block's position before it is placed in a layer is uninitialised in the source; the model starts it at (0, 0).
- Plain entities carry the player's fields unused, so one state type covers both; `isPlayer` selects the handler.
- `InputManager::getInstance`/`isInstance` are the `InstanceSlot` object; the game's frame reads the held buttons from that instance, which the level update takes as its `held` parameter.
- The level's layer movers take the layer's index instead of a reference, and entities' fields are written directly instead of through their setters, which only assign.
- `updateEntityMotionX`/`Y` and `updateLayerMotionX`/`Y` are split into helper methods by sign and by phase (whole pixels, remainder), and the entity loops of the layer movers into per-entity helpers; together they run the source's statements in the source's order.
- `TILE_SIZE` (`source/level/Level.hpp:19`) and `NUM_INPUT_BUTTONS` with the button order (`source/input/InputButton.hpp:7-21`) are taken from the headers.
- `GameStateManager::isRunning`, `Sdl2InputManager::isButtonPressed` and `shutdownReceived` are plain reads, modelled as functions with no contract of their own; the contracts that use them carry their meaning.
- Entities.BoundingBox requires a non-negative width and height, which every entity of the game has.
