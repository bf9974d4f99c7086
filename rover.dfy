/** The rover: its kinematic and fuel state, the fixed-order physics step, and
    ground contact (src/rover.rs). */
module Rovers {
  import opened Physics

  const RoverRadius := 15.0

  /** Lateral thrust is this fraction of the vertical thrust power. */
  const LateralThrustFactor := 0.7
  /** Each lateral burn uses this fraction of the vertical burn's fuel. */
  const LateralFuelFactor := 0.5
  /** Horizontal velocity kept after one tick of drag. */
  const DragFactor := 0.98

  /** The value of a rover: the fields of the Rust struct. */
  datatype RoverState = RoverState(
    position: Vec2,
    velocity: Vec2,
    fuel: real,
    radius: real,
    onGround: bool)
  {
    /** Stage 1: gravity acts only while airborne. */
    function ApplyGravity(phys: Constants, dt: real): RoverState {
      if !onGround then this.(velocity := velocity.(y := velocity.y + phys.gravity * dt))
      else this
    }

    /** Stage 2: the three thrusters, each burning fuel, all skipped when the
        tank is empty on entry to the stage (a burn that empties the tank does
        not stop the burns after it in the same tick).  Upward thrust lifts the
        rover off the ground. */
    function ApplyThrust(phys: Constants, dt: real, up: bool, left: bool, right: bool): RoverState {
      if fuel > 0.0 then ThrustUp(phys, dt, up).ThrustLeft(phys, dt, left).ThrustRight(phys, dt, right)
      else this
    }

    function ThrustUp(phys: Constants, dt: real, pressed: bool): RoverState {
      if pressed then
        this.(velocity := velocity.(y := velocity.y - phys.thrustPower * dt),
              fuel := fuel - phys.fuelConsumptionRate * dt,
              onGround := false)
      else this
    }

    function ThrustLeft(phys: Constants, dt: real, pressed: bool): RoverState {
      if pressed then
        this.(velocity := velocity.(x := velocity.x - phys.thrustPower * LateralThrustFactor * dt),
              fuel := fuel - phys.fuelConsumptionRate * LateralFuelFactor * dt)
      else this
    }

    function ThrustRight(phys: Constants, dt: real, pressed: bool): RoverState {
      if pressed then
        this.(velocity := velocity.(x := velocity.x + phys.thrustPower * LateralThrustFactor * dt),
              fuel := fuel - phys.fuelConsumptionRate * LateralFuelFactor * dt)
      else this
    }

    /** Stages 3 to 6: fuel floor, drag, explicit Euler step, left wall. */
    function Settle(dt: real): RoverState {
      var fuel' := Max(fuel, 0.0);
      var velocity' := velocity.(x := velocity.x * DragFactor);
      var position' := position.Plus(velocity'.Scale(dt));
      if position'.x < radius then
        this.(position := position'.(x := radius), velocity := velocity'.(x := 0.0), fuel := fuel')
      else
        this.(position := position', velocity := velocity', fuel := fuel')
    }

    /** One call of `update`: the six stages in their fixed order. */
    function Step(phys: Constants, dt: real, up: bool, left: bool, right: bool): RoverState {
      ApplyGravity(phys, dt).ApplyThrust(phys, dt, up, left, right).Settle(dt)
    }

    /** `check_ground_collision`: the bottom of the rover reaches the ground. */
    predicate TouchesGround(groundY: real) {
      position.y + radius >= groundY
    }

    /** `land`: rest the rover on the ground line. */
    function Landed(groundY: real): RoverState {
      this.(position := position.(y := groundY - radius), velocity := velocity.(y := 0.0), onGround := true)
    }

    /** `n` consecutive ticks with the same inputs and time step. */
    function Ticks(phys: Constants, dt: real, up: bool, left: bool, right: bool, n: nat): RoverState
      decreases n
    {
      if n == 0 then this else Ticks(phys, dt, up, left, right, n - 1).Step(phys, dt, up, left, right)
    }
  }

  /** `Rover::new`: the rover as spawned. */
  function Spawn(phys: Constants, position: Vec2): RoverState {
    RoverState(position, Zero, phys.maxFuel, RoverRadius, false)
  }

  /** The mutable rover of the game; its methods change the fields in place in
      the order the source does. */
  class Rover {
    var position: Vec2
    var velocity: Vec2
    var fuel: real
    var radius: real
    var onGround: bool

    function State(): RoverState
      reads this
    {
      RoverState(position, velocity, fuel, radius, onGround)
    }

    constructor (phys: Constants, position: Vec2)
      ensures this.position == position && velocity == Zero
      ensures fuel == phys.maxFuel && radius == RoverRadius && !onGround
      ensures State() == Spawn(phys, position)
    {
      this.position := position;
      velocity := Zero;
      fuel := phys.maxFuel;
      radius := RoverRadius;
      onGround := false;
    }

    /** `update`: gravity, thrust, fuel floor, drag, Euler step and left wall,
        in that order (the stages are the three methods below). */
    method Update(phys: Constants, dt: real, thrustUp: bool, thrustLeft: bool, thrustRight: bool)
      modifies this
      ensures State() == old(State()).Step(phys, dt, thrustUp, thrustLeft, thrustRight)
      ensures fuel >= 0.0 && position.x >= radius && radius == old(radius)
    {
      ApplyGravity(phys, dt);
      ApplyThrust(phys, dt, thrustUp, thrustLeft, thrustRight);
      Settle(dt);
    }

    method ApplyGravity(phys: Constants, dt: real)
      modifies this
      ensures State() == old(State()).ApplyGravity(phys, dt)
    {
      if !onGround {
        velocity := velocity.(y := velocity.y + phys.gravity * dt);
      }
    }

    method ApplyThrust(phys: Constants, dt: real, thrustUp: bool, thrustLeft: bool, thrustRight: bool)
      modifies this
      ensures State() == old(State()).ApplyThrust(phys, dt, thrustUp, thrustLeft, thrustRight)
    {
      if fuel > 0.0 {
        ghost var entry := State();
        if thrustUp {
          velocity := velocity.(y := velocity.y - phys.thrustPower * dt);
          fuel := fuel - phys.fuelConsumptionRate * dt;
          onGround := false;
        }
        ghost var afterUp := State();
        assert afterUp == entry.ThrustUp(phys, dt, thrustUp);
        if thrustLeft {
          velocity := velocity.(x := velocity.x - phys.thrustPower * LateralThrustFactor * dt);
          fuel := fuel - phys.fuelConsumptionRate * LateralFuelFactor * dt;
        }
        ghost var afterLeft := State();
        assert afterLeft == afterUp.ThrustLeft(phys, dt, thrustLeft);
        if thrustRight {
          velocity := velocity.(x := velocity.x + phys.thrustPower * LateralThrustFactor * dt);
          fuel := fuel - phys.fuelConsumptionRate * LateralFuelFactor * dt;
        }
        assert State() == afterLeft.ThrustRight(phys, dt, thrustRight);
      }
    }

    method Settle(dt: real)
      modifies this
      ensures State() == old(State()).Settle(dt)
    {
      fuel := Max(fuel, 0.0);
      velocity := velocity.(x := velocity.x * DragFactor);
      position := position.Plus(velocity.Scale(dt));
      if position.x < radius {
        position := position.(x := radius);
        velocity := velocity.(x := 0.0);
      }
    }

    predicate CheckGroundCollision(groundY: real)
      reads this
    {
      State().TouchesGround(groundY)
    }

    method Land(groundY: real)
      modifies this
      ensures State() == old(State()).Landed(groundY)
    {
      position := position.(y := groundY - radius);
      velocity := velocity.(y := 0.0);
      onGround := true;
    }
  }

  /** Whatever the inputs, the tank never ends a tick below empty. */
  lemma StepFuelNonNegative(s: RoverState, phys: Constants, dt: real, up: bool, left: bool, right: bool)
    ensures s.Step(phys, dt, up, left, right).fuel >= 0.0
  {
  }

  /** With a non-negative time step and burn rate a tick never adds fuel, so a
      tank within [0, MAX_FUEL] stays within it. */
  lemma StepFuelNonIncreasing(s: RoverState, phys: Constants, dt: real, up: bool, left: bool, right: bool)
    requires dt >= 0.0 && phys.fuelConsumptionRate >= 0.0 && s.fuel >= 0.0
    ensures s.Step(phys, dt, up, left, right).fuel <= s.fuel
    ensures s.fuel <= phys.maxFuel ==> s.Step(phys, dt, up, left, right).fuel <= phys.maxFuel
  {
  }

  /** With an empty tank the thrust keys change nothing: the tick is the same as
      one with no key held. */
  lemma StepEmptyTankIgnoresThrust(s: RoverState, phys: Constants, dt: real, up: bool, left: bool, right: bool)
    requires s.fuel <= 0.0
    ensures s.Step(phys, dt, up, left, right) == s.Step(phys, dt, false, false, false)
    ensures s.Step(phys, dt, up, left, right).onGround == s.onGround
  {
  }

  /** Gravity is added exactly when the rover was airborne on entry, and the
      up-burn is subtracted exactly when the up key is held with fuel in the
      tank (a take-off from the ground gets the burn but no gravity); drag does
      not touch the vertical velocity. */
  lemma StepGravity(s: RoverState, phys: Constants, dt: real, up: bool, left: bool, right: bool)
    ensures var r := s.Step(phys, dt, up, left, right);
      r.velocity.y == s.velocity.y + (if s.onGround then 0.0 else phys.gravity * dt)
                                   - (if up && s.fuel > 0.0 then phys.thrustPower * dt else 0.0)
  {
  }

  /** `update` never sets the on-ground flag, and clears it exactly when upward
      thrust fires with fuel in the tank. */
  lemma StepOnGroundFlag(s: RoverState, phys: Constants, dt: real, up: bool, left: bool, right: bool)
    ensures var r := s.Step(phys, dt, up, left, right);
      (r.onGround ==> s.onGround) &&
      (r.onGround <==> s.onGround && !(up && s.fuel > 0.0))
  {
  }

  /** The left wall: after a tick the rover is never left of its radius, and when
      the Euler step would have crossed the wall the rover stops exactly on it.
      Otherwise the wall does not interfere. */
  lemma StepLeftWall(s: RoverState, phys: Constants, dt: real, up: bool, left: bool, right: bool)
    ensures var pre := s.ApplyGravity(phys, dt).ApplyThrust(phys, dt, up, left, right);
      var free := pre.position.x + pre.velocity.x * DragFactor * dt;
      var r := s.Step(phys, dt, up, left, right);
      r.position.x >= r.radius && r.radius == s.radius &&
      (free < s.radius ==> r.position.x == s.radius && r.velocity.x == 0.0) &&
      (free >= s.radius ==> r.position.x == free && r.velocity.x == pre.velocity.x * DragFactor)
  {
  }

  /** `land` rests the rover on the line and leaves everything else alone; a
      landed rover touches the ground, and landing twice is landing once. */
  lemma LandedSpec(s: RoverState, groundY: real)
    ensures var r := s.Landed(groundY);
      r.position.y == groundY - s.radius && r.velocity.y == 0.0 && r.onGround &&
      r.position.x == s.position.x && r.velocity.x == s.velocity.x &&
      r.fuel == s.fuel && r.radius == s.radius &&
      r.TouchesGround(groundY) &&
      r.Landed(groundY) == r
  {
  }

  /** Holding the up key with nothing else: after `n` ticks a tank that held
      `f` (MAX_FUEL for a spawned rover) holds max(0, f - n * burn), where
      `burn` is the fuel one up-burn costs, FUEL_CONSUMPTION_RATE * dt.  The
      tank therefore never goes below empty however many ticks pass. */
  lemma FuelUnderContinuousThrust(s: RoverState, phys: Constants, dt: real, n: nat, burn: real)
    requires burn == phys.fuelConsumptionRate * dt && burn >= 0.0 && s.fuel >= 0.0
    ensures s.Ticks(phys, dt, true, false, false, n).fuel == Max(0.0, s.fuel - (n as real) * burn)
  {
    UpThrustTicksFuel(s, phys, dt, n);
    BurnIterated(s.fuel, burn, n);
    MultipleIsProduct(n, burn);
  }

  /** Free fall: with no key held and the rover airborne, every tick adds
      `kick` = GRAVITY * dt to the vertical velocity and keeps the rover airborne. */
  lemma FreeFall(s: RoverState, phys: Constants, dt: real, n: nat, kick: real)
    requires !s.onGround && kick == phys.gravity * dt
    ensures var r := s.Ticks(phys, dt, false, false, false, n);
      !r.onGround && r.velocity.y == s.velocity.y + (n as real) * kick
  {
    FreeFallKicks(s, phys, dt, n, kick);
    MultipleIsProduct(n, kick);
  }

  /** `n` copies of `c` added up. */
  function Multiple(n: nat, c: real): real {
    if n == 0 then 0.0 else Multiple(n - 1, c) + c
  }

  lemma {:induction false} MultipleIsProduct(n: nat, c: real)
    ensures Multiple(n, c) == (n as real) * c
  {
    if n > 0 {
      MultipleIsProduct(n - 1, c);
      assert (n as real) * c == ((n - 1) as real) * c + c;
    }
  }

  /** The tank level after one tick of up-thrust alone, from level `f`, when a
      burn costs `c`. */
  function UpBurn(f: real, c: real): real {
    if f > 0.0 then Max(f - c, 0.0) else Max(f, 0.0)
  }

  function UpBurns(f: real, c: real, n: nat): real {
    if n == 0 then f else UpBurn(UpBurns(f, c, n - 1), c)
  }

  /** One tick of up-thrust alone burns FUEL_CONSUMPTION_RATE * dt, floored at 0. */
  lemma UpThrustFuel(s: RoverState, phys: Constants, dt: real)
    ensures s.Step(phys, dt, true, false, false).fuel == UpBurn(s.fuel, phys.fuelConsumptionRate * dt)
  {
  }

  lemma {:induction false} UpThrustTicksFuel(s: RoverState, phys: Constants, dt: real, n: nat)
    ensures s.Ticks(phys, dt, true, false, false, n).fuel == UpBurns(s.fuel, phys.fuelConsumptionRate * dt, n)
  {
    if n > 0 {
      UpThrustTicksFuel(s, phys, dt, n - 1);
      var prev := s.Ticks(phys, dt, true, false, false, n - 1);
      assert s.Ticks(phys, dt, true, false, false, n) == prev.Step(phys, dt, true, false, false);
      UpThrustFuel(prev, phys, dt);
    }
  }

  lemma {:induction false} BurnIterated(full: real, c: real, n: nat)
    requires full >= 0.0 && c >= 0.0
    ensures UpBurns(full, c, n) == Max(0.0, full - Multiple(n, c))
  {
    if n > 0 {
      BurnIterated(full, c, n - 1);
      MultipleNonNegative(n - 1, c);
    }
  }

  lemma {:induction false} MultipleNonNegative(n: nat, c: real)
    requires c >= 0.0
    ensures Multiple(n, c) >= 0.0
  {
    if n > 0 {
      MultipleNonNegative(n - 1, c);
    }
  }

  lemma {:induction false} FreeFallKicks(s: RoverState, phys: Constants, dt: real, n: nat, kick: real)
    requires !s.onGround && kick == phys.gravity * dt
    ensures var r := s.Ticks(phys, dt, false, false, false, n);
      !r.onGround && r.velocity.y == s.velocity.y + Multiple(n, kick)
  {
    if n > 0 {
      FreeFallKicks(s, phys, dt, n - 1, kick);
      var before := s.Ticks(phys, dt, false, false, false, n - 1);
      assert s.Ticks(phys, dt, false, false, false, n) == before.Step(phys, dt, false, false, false);
      StepGravity(before, phys, dt, false, false, false);
    }
  }
}
