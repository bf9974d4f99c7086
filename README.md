# Rover simulation core in Dafny

This project models the simulation core of Rover, a small 2D side-scrolling
game written in Rust. The player flies a circular rover over seeded,
procedurally generated terrain. The rover has gravity, upward and lateral
thrust that burn fuel, horizontal drag and a left wall. It lands when it
touches the ground, and the game ends when it overlaps a floating obstacle.
The project proves properties of the model.

The project has four modules:

- `Physics` (`physics.dfy`) holds the 2D vector type and the physics
  constants. GRAVITY, THRUST_POWER, MAX_FUEL and FUEL_CONSUMPTION_RATE live
  in a module that is not part of this model, so they are passed in as a
  `Constants` value. The module also holds the two float helpers the core
  uses, `max` and `clamp`.
- `Rovers` (`rover.dfy`) models `Rover`. Each method is modelled twice:
  - `RoverState` is the rover as a value. `Step` is a pure function for one
    tick of `update`, built from the stages the source runs in order:
    gravity, thrust, then the fuel floor, drag, integration and the wall
    clamp.
  - The class `Rover` changes its fields in place. Each of its methods is
    proved to move `State()` exactly as the matching `RoverState` function
    does.
- `Terrains` (`terrain.dfy`) models `Terrain::new`:
  - The seeded generator is an abstract stream `Draws` of values in
    [0, 1). `gen_range(lo..hi)` is modelled as `lo + (hi - lo) * u` and
    `gen_bool(p)` as `u < p`.
  - `Generate` is the reference definition. The method `GenerateTerrain`
    runs the source's two loops and is proved to produce exactly
    `Generate(draws)`.
  - `GroundY` models `get_ground_y`, and `CheckObstacleCollision` models the
    early-exit scan of `check_obstacle_collision` against the existential
    `Collides`.
- `Game` (`game.dfy`) models `GameState`:
  - The function `Tick` is one call of `EventHandler::update`.
  - The class `GameState` has the struct's fields. Its `Update` calls the
    rover's methods, the ground query and the collision scan in the source's
    order, and is proved equal to `Tick`.
  - Lemmas about `Tick` state the game-over state machine, the landing
    guarantee, the distance record and the camera bounds. They also state a
    session invariant that holds from `new` on.

In the source a negative `x` saturates to segment 0 in the ground query. The
model keeps that behaviour: `SegmentIndex` saturates and `SegmentOffset` uses
the truncated float remainder, so `GroundY` is total. Only the lemmas about
the query assume `x >= 0`.

Past the last sample `get_ground_y` returns the constant 500.0, not the last
sample's height; the last sample is held only over the last segment
(src/terrain.rs:61-62, 70-71). `GroundYPastEnd` and `GroundYLastSegment`
state the two cases.

## Model

| member | source | states |
|---|---|---|
| Physics.Clamp | src/terrain.rs:32 | `f32::clamp` result lies in [lo, hi], equals v when v is inside, and equals the bound v crosses otherwise |
| Rovers.Rover.constructor | src/rover.rs:16-24 | a new rover stands at the given position with zero velocity, fuel == MAX_FUEL, radius 15 and not on the ground |
| Rovers.Rover.Update | src/rover.rs:26-59 | one tick moves the fields exactly as `RoverState.Step` says; afterwards fuel >= 0, x >= radius and the radius is unchanged |
| Rovers.Rover.ApplyGravity | src/rover.rs:27-29 | gravity stage: velocity.y gains GRAVITY*dt only when the rover is not on the ground |
| Rovers.Rover.ApplyThrust | src/rover.rs:31-47 | thrust stage: with fuel > 0, up, left and right act in that order, each changing velocity and burning fuel; up also clears on_ground; with fuel <= 0 nothing changes |
| Rovers.Rover.Settle | src/rover.rs:49-58 | fuel is floored at 0, velocity.x is multiplied by 0.98, the position moves by velocity*dt, and x is clamped to the radius with velocity.x zeroed |
| Rovers.Rover.CheckGroundCollision | src/rover.rs:61-63 | holds iff position.y + radius >= ground_y (`RoverState.TouchesGround` of the current state); `LandedSpec` shows it holds after landing |
| Rovers.Rover.Land | src/rover.rs:65-69 | landing moves the fields exactly as `RoverState.Landed` says |
| Rovers.StepFuelNonNegative | src/rover.rs:49 | after a tick fuel >= 0, whatever the inputs |
| Rovers.StepFuelNonIncreasing | src/rover.rs:31-49 | with dt >= 0, a non-negative consumption rate and fuel >= 0, a tick never increases fuel, so fuel <= MAX_FUEL is preserved |
| Rovers.StepEmptyTankIgnoresThrust | src/rover.rs:27-51 | with fuel <= 0 a tick gives the same state as with no key pressed, and on_ground is unchanged |
| Rovers.StepGravity | src/rover.rs:27-35 | velocity.y gains GRAVITY*dt exactly when the rover was not on the ground, and loses THRUST_POWER*dt exactly when up is held with fuel > 0 (a take-off gets the burn without gravity) |
| Rovers.StepOnGroundFlag | src/rover.rs:32-35 | a tick never sets on_ground; after it, on_ground holds iff it held before and no up-thrust fired with fuel > 0 |
| Rovers.StepLeftWall | src/rover.rs:51-58 | after a tick x >= radius; when the unclamped x would be below the radius, x == radius and velocity.x == 0; otherwise x is the Euler step and velocity.x the dragged velocity |
| Rovers.LandedSpec | src/rover.rs:61-69 | landing sets y = ground - radius, velocity.y = 0 and on_ground; it leaves x, velocity.x, fuel and radius alone; the ground check then holds; landing again changes nothing |
| Rovers.FuelUnderContinuousThrust | src/rover.rs:31-49 | after n ticks of up-thrust only, fuel == max(0, fuel0 - n*rate*dt) |
| Rovers.FreeFall | src/rover.rs:26-59 | over n ticks with no key pressed an airborne rover stays airborne, and velocity.y grows by n*GRAVITY*dt |
| Terrains.GenRange | src/terrain.rs:31-43 | a `gen_range(lo..hi)` draw lies in [lo, hi) |
| Terrains.HeightAt | src/terrain.rs:27-34 | every running height the generator pushes lies in [400, 650] |
| Terrains.GenerateTerrain | src/terrain.rs:21-57 | `Terrain::new` returns exactly `Generate(draws)`, and that terrain is well formed |
| Terrains.GenerateHeights | src/terrain.rs:26-35 | the height loop pushes one running height per index, 500 in all, and consumes 49 draws |
| Terrains.PlaceObstacles | src/terrain.rs:37-50 | the obstacle loop builds exactly the scan `ObstaclesFrom` from its starting draw |
| Terrains.GeneratedWellFormed | src/terrain.rs:24-48 | a generated terrain has 500 points; points[0] == 500; all points lie in [400, 650]; a point equals its predecessor unless its index is a multiple of 10; neighbours differ by less than 50; obstacles sit as placed |
| Terrains.HeightStep | src/terrain.rs:30-33 | a perturbation then clamp moves the height by an amount in [-50, 50) |
| Terrains.ObstaclesPlaced | src/terrain.rs:38-48 | each obstacle sits over some index i in [5, 495): x == i*50, ground - y in [30, 80), radius in [20, 40); obstacles have strictly ascending x |
| Terrains.SegmentIndex | src/terrain.rs:60 | for x >= 0 the segment index is the floor of x/50; for negative x it saturates to 0 |
| Terrains.SegmentOffset | src/terrain.rs:66 | the float `x % 50`: for x >= 0 it is x minus the start of x's segment, in [0, 50); for negative x it lies in (-50, 0] |
| Terrains.GroundY | src/terrain.rs:59-73 | `get_ground_y` as a total function; its properties are the `GroundY*` lemmas below |
| Terrains.Lerp | src/terrain.rs:66-69 | for a fraction in [0, 1] the interpolated height lies between the two samples |
| Terrains.GroundYAtSample | src/terrain.rs:59-69 | at x == i*50 the query returns points[i] exactly |
| Terrains.GroundYMidpoint | src/terrain.rs:65-69 | halfway between samples i and i+1 the query returns their mean |
| Terrains.GroundYBetween | src/terrain.rs:65-69 | inside an interior segment the query lies between the segment's two end samples |
| Terrains.GroundYLastSegment | src/terrain.rs:65-72 | over the last segment the query returns the last sample |
| Terrains.GroundYPastEnd | src/terrain.rs:60-63 | at or beyond 500 segments the query returns 500.0 |
| Terrains.GroundYInBand | src/terrain.rs:59-73 | over a well-formed terrain, for x >= 0 the ground lies in [400, 650] |
| Terrains.OverlapsIffCloserThanReach | src/terrain.rs:77-78 | comparing squares is exactly `distance < rover.radius + obstacle.radius` |
| Terrains.CheckObstacleCollision | src/terrain.rs:75-83 | the scan returns true iff some obstacle overlaps the rover |
| Game.CameraStep | src/main.rs:47-54 | the camera never moves left of 0 |
| Game.GameState.constructor | src/main.rs:26-37 | `new` yields the initial session: rover spawned at (200, 300), terrain from the seeded stream, camera 0, not game over, distance 0 |
| Game.GameState.Restart | src/main.rs:39-45 | `restart` yields exactly the session `new` yields, with a fresh rover object |
| Game.GameState.UpdateCamera | src/main.rs:47-54 | the camera moves a tenth of the way toward rover.x - 1024/3 and is floored at 0 |
| Game.GameState.Update | src/main.rs:58-89 | one call of `update` moves the session exactly as `Tick` says |
| Game.GameOverTick | src/main.rs:59-64 | after a game over a tick ignores dt and the thrust keys; it changes nothing without R, and with R it equals `restart` |
| Game.GameOverTransitions | src/main.rs:39-64 | once the game is over, it stays over exactly until R is pressed |
| Game.RunningTickHit | src/main.rs:74-81 | a running tick sets game_over iff the post-landing rover overlaps an obstacle |
| Game.DistanceRecord | src/main.rs:85-86 | in a running tick the distance never decreases, is at least rover.x/100, and is one of the two |
| Game.CameraApproaches | src/main.rs:47-54 | from camera >= 0 the camera never overshoots its target; it stays between its old position and the target, or between 0 and its old position when the target is negative |
| Game.AboveGroundAfterTick | src/main.rs:74-77 | after a running tick, rover.y + radius <= the ground height under the rover |
| Game.LandingIgnoresObstacles | src/main.rs:72-83 | a running tick's rover, camera and distance do not depend on the obstacles |
| Game.InitialInv | src/main.rs:26-37 | the initial session satisfies the session invariant (terrain as generated, fuel in [0, MAX_FUEL], radius 15, x >= radius, rover on or above the ground, camera and distance >= 0) |
| Game.TickInv | src/main.rs:58-89 | with dt >= 0 and non-negative fuel constants, every tick preserves the session invariant |

## Left out

- Drawing is not modelled. This covers the `draw` methods of the rover, the
  terrain and the game, and `main` with the event loop: they are rendering
  and window setup.
- ggez input and the clock are not modelled. The frame delta `dt` is a
  parameter of `Update`, and the seven polled keys (Up, W, Left, A, Right,
  D, R) are booleans in `Keys`.
- The `StdRng` algorithm and seed 42 are not modelled. The generator is an
  arbitrary stream of values in [0, 1), and the rand crate's float scaling
  is `lo + (hi - lo) * u`. The order and number of draws are those of the
  source. The model does not reproduce the concrete layout that seed 42
  gives.
- IEEE-754 `f32` rounding, NaN and infinities are not modelled: every float
  is a `real`.
- The physics constants are parameters, because the module that defines them
  is not part of this model. Properties that need non-negative values say so
  in their `requires`.
- Rovers.Rover.Update runs the source's field updates through three stage
  methods (`ApplyGravity`, `ApplyThrust`, `Settle`) in the source's order,
  rather than in one method body.
- Terrains.OverlapsIffCloserThanReach: there is no square root. The
  collision test compares squared distances, and this lemma relates it to
  `length()` only for a given non-negative `distance` whose square is the
  squared length.
- Rovers.FuelUnderContinuousThrust takes the per-tick burn `rate * dt` as a
  parameter equal to that product. It is stated for any starting fuel >= 0,
  which includes MAX_FUEL.
- Terrains.GroundYInBand, Terrains.GroundYBetween, Terrains.GroundYAtSample:
  they are stated for x >= 0 only. For negative x, `GroundY` follows the
  source's saturating cast and signed remainder, but no property is claimed
  about it.
- The `segment_width` field is always 50.0, so it is the constant
  `SegmentWidth`, not a field of `Terrain`.
