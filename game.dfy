/** The session controller (`GameState` in src/main.rs): a rover over a
    terrain, a smoothed camera, the distance record and the running /
    game-over state machine. */
module Game {
  import opened Physics
  import opened Rovers
  import opened Terrains

  const SpawnPosition := Vec2(200.0, 300.0)
  const WindowWidth := 1024.0
  /** The camera aims to keep the rover a third of the window from the left edge. */
  const CameraLead := WindowWidth / 3.0
  /** Each tick the camera covers this share of its distance to the target. */
  const CameraSmoothing := 0.1
  /** World units per unit of distance travelled. */
  const DistanceScale := 100.0

  /** The keys the tick polls: Up or W thrusts up, Left or A left, Right or D
      right, and R restarts after a game over. */
  datatype Keys = Keys(up: bool, w: bool, left: bool, a: bool, right: bool, d: bool, r: bool) {
    predicate ThrustUp() { up || w }
    predicate ThrustLeft() { left || a }
    predicate ThrustRight() { right || d }
  }

  /** The fields of `GameState`, the rover as its value. */
  datatype Session = Session(
    rover: RoverState,
    terrain: Terrain,
    cameraX: real,
    gameOver: bool,
    distanceTraveled: real)

  /** What `new` and `restart` produce; the terrain is generated afresh from
      the same seeded stream, so it is the same terrain every time. */
  function Initial(phys: Constants, draws: Draws): Session {
    Session(Spawn(phys, SpawnPosition), Generate(draws), 0.0, false, 0.0)
  }

  /** `update_camera`: move a tenth of the way toward the target, then raise
      a negative result to 0. */
  function CameraStep(cameraX: real, roverX: real): (c: real)
    ensures c >= 0.0
  {
    var target := roverX - CameraLead;
    var moved := cameraX + (target - cameraX) * CameraSmoothing;
    if moved < 0.0 then 0.0 else moved
  }

  /** One call of `EventHandler::update`. */
  function Tick(phys: Constants, draws: Draws, s: Session, dt: real, keys: Keys): Session {
    if s.gameOver then
      if keys.r then Initial(phys, draws) else s
    else
      var moved := s.rover.Step(phys, dt, keys.ThrustUp(), keys.ThrustLeft(), keys.ThrustRight());
      var groundY := GroundY(s.terrain, moved.position.x);
      var landed := if moved.TouchesGround(groundY) then moved.Landed(groundY) else moved;
      var hit := Collides(s.terrain, landed.position, landed.radius);
      Session(landed, s.terrain, CameraStep(s.cameraX, landed.position.x), hit,
              Max(landed.position.x / DistanceScale, s.distanceTraveled))
  }

  class GameState {
    const phys: Constants
    /** The seeded generator's stream; every `Terrain::new` reads it from the start. */
    const draws: Draws
    var rover: Rover
    var terrain: Terrain
    var cameraX: real
    var gameOver: bool
    var distanceTraveled: real

    function Snapshot(): Session
      reads this, rover
    {
      Session(rover.State(), terrain, cameraX, gameOver, distanceTraveled)
    }

    /** `GameState::new`. */
    constructor (phys: Constants, draws: Draws)
      ensures this.phys == phys && this.draws == draws
      ensures Snapshot() == Initial(phys, draws)
    {
      var rover := new Rover(phys, SpawnPosition);
      var terrain := GenerateTerrain(draws);
      this.phys := phys;
      this.draws := draws;
      this.rover := rover;
      this.terrain := terrain;
      cameraX := 0.0;
      gameOver := false;
      distanceTraveled := 0.0;
    }

    /** `restart`: a new rover at the spawn point and every other field as
        `new` sets it. */
    method Restart()
      modifies this
      ensures fresh(rover)
      ensures Snapshot() == Initial(phys, draws)
    {
      rover := new Rover(phys, SpawnPosition);
      terrain := GenerateTerrain(draws);
      cameraX := 0.0;
      gameOver := false;
      distanceTraveled := 0.0;
    }

    method UpdateCamera()
      modifies this`cameraX
      ensures cameraX == CameraStep(old(cameraX), rover.position.x)
    {
      var targetX := rover.position.x - CameraLead;
      cameraX := cameraX + (targetX - cameraX) * CameraSmoothing;
      if cameraX < 0.0 {
        cameraX := 0.0;
      }
    }

    /** `EventHandler::update` without the clock and the keyboard: `dt` and
        the pressed keys are parameters. */
    method Update(dt: real, keys: Keys)
      modifies this, rover
      ensures Snapshot() == Tick(phys, draws, old(Snapshot()), dt, keys)
    {
      if gameOver {
        if keys.r {
          Restart();
        }
        return;
      }
      rover.Update(phys, dt, keys.ThrustUp(), keys.ThrustLeft(), keys.ThrustRight());
      var groundY := GroundY(terrain, rover.position.x);
      if rover.CheckGroundCollision(groundY) {
        rover.Land(groundY);
      }
      var hit := CheckObstacleCollision(terrain, rover);
      if hit {
        gameOver := true;
      }
      UpdateCamera();
      var newDistance := Max(rover.position.x / DistanceScale, distanceTraveled);
      distanceTraveled := newDistance;
    }
  }

  // ---------------------------------------------------------------------------
  // Properties of a tick

  /** After a game over a tick ignores the clock and the thrust keys: it
      changes nothing, unless R is pressed, and then it is `restart`. */
  lemma GameOverTick(phys: Constants, draws: Draws, s: Session, dt: real, keys: Keys, dt': real, keys': Keys)
    requires s.gameOver && keys'.r == keys.r
    ensures Tick(phys, draws, s, dt, keys) == Tick(phys, draws, s, dt', keys')
    ensures !keys.r ==> Tick(phys, draws, s, dt, keys) == s
    ensures keys.r ==> Tick(phys, draws, s, dt, keys) == Initial(phys, draws)
  {
  }

  /** The game-over flag is lowered only by a restart, which always lowers
      it; a running tick raises it only on a hit (see RunningTickHit). */
  lemma GameOverTransitions(phys: Constants, draws: Draws, s: Session, dt: real, keys: Keys)
    requires s.gameOver
    ensures Tick(phys, draws, s, dt, keys).gameOver <==> !keys.r
  {
  }

  /** A running tick ends the game exactly when the rover, where it stands
      after landing, overlaps an obstacle. */
  lemma RunningTickHit(phys: Constants, draws: Draws, s: Session, dt: real, keys: Keys)
    requires !s.gameOver
    ensures var t := Tick(phys, draws, s, dt, keys);
      t.gameOver <==> Collides(s.terrain, t.rover.position, t.rover.radius)
  {
  }

  /** The distance record never decreases and keeps up with the rover. */
  lemma DistanceRecord(phys: Constants, draws: Draws, s: Session, dt: real, keys: Keys)
    requires !s.gameOver
    ensures var t := Tick(phys, draws, s, dt, keys);
      t.distanceTraveled >= s.distanceTraveled &&
      t.distanceTraveled >= t.rover.position.x / DistanceScale &&
      (t.distanceTraveled == s.distanceTraveled || t.distanceTraveled == t.rover.position.x / DistanceScale)
  {
  }

  /** From a non-negative position the camera never moves away from its
      target, and while the target is not left of the origin it stays
      between where it was and the target. */
  lemma CameraApproaches(cameraX: real, roverX: real)
    requires cameraX >= 0.0
    ensures var target, c := roverX - CameraLead, CameraStep(cameraX, roverX);
      (cameraX <= target ==> cameraX <= c <= target) &&
      (0.0 <= target <= cameraX ==> target <= c <= cameraX) &&
      (target < 0.0 ==> 0.0 <= c <= cameraX)
  {
  }

  /** After a running tick the rover is never below the ground under it: it
      either landed on it or did not reach it. */
  lemma AboveGroundAfterTick(phys: Constants, draws: Draws, s: Session, dt: real, keys: Keys)
    requires !s.gameOver
    ensures var t := Tick(phys, draws, s, dt, keys);
      t.rover.position.y + t.rover.radius <= GroundY(s.terrain, t.rover.position.x)
  {
  }

  /** The landing step does not look at the obstacles: two terrains with the
      same ground give the same rover, camera and distance after a running
      tick, whatever their obstacles. */
  lemma LandingIgnoresObstacles(phys: Constants, draws: Draws, s: Session, obstacles: seq<Obstacle>, dt: real, keys: Keys)
    requires !s.gameOver
    ensures var other := s.(terrain := s.terrain.(obstacles := obstacles), gameOver := false);
      var t, t' := Tick(phys, draws, s, dt, keys), Tick(phys, draws, other, dt, keys);
      t'.rover == t.rover && t'.cameraX == t.cameraX && t'.distanceTraveled == t.distanceTraveled
  {
  }

  // ---------------------------------------------------------------------------
  // The session invariant

  /** What holds of every session from `new` on, given a non-negative tick
      length and non-negative fuel constants. */
  ghost predicate SessionInv(phys: Constants, draws: Draws, s: Session) {
    s.terrain == Generate(draws) &&
    0.0 <= s.rover.fuel <= phys.maxFuel &&
    s.rover.radius == RoverRadius &&
    s.rover.position.x >= s.rover.radius &&
    s.rover.position.y + s.rover.radius <= GroundY(s.terrain, s.rover.position.x) &&
    s.cameraX >= 0.0 &&
    s.distanceTraveled >= 0.0
  }

  lemma InitialInv(phys: Constants, draws: Draws)
    requires phys.FuelSane()
    ensures SessionInv(phys, draws, Initial(phys, draws))
  {
    GeneratedWellFormed(draws);
    GroundYInBand(Generate(draws), SpawnPosition.x);
  }

  lemma TickInv(phys: Constants, draws: Draws, s: Session, dt: real, keys: Keys)
    requires phys.FuelSane() && dt >= 0.0
    requires SessionInv(phys, draws, s)
    ensures SessionInv(phys, draws, Tick(phys, draws, s, dt, keys))
  {
    if s.gameOver {
      if keys.r {
        InitialInv(phys, draws);
      }
    } else {
      var up, left, right := keys.ThrustUp(), keys.ThrustLeft(), keys.ThrustRight();
      var moved := s.rover.Step(phys, dt, up, left, right);
      StepFuelNonNegative(s.rover, phys, dt, up, left, right);
      StepFuelNonIncreasing(s.rover, phys, dt, up, left, right);
      StepLeftWall(s.rover, phys, dt, up, left, right);
      LandedSpec(moved, GroundY(s.terrain, moved.position.x));
      AboveGroundAfterTick(phys, draws, s, dt, keys);
    }
  }
}
