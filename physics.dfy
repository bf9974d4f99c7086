/** Shared vocabulary of the simulation: 2D vectors (glam's Vec2, with f32 read as
    real), the physics constants, and the two f32 helpers the core uses (max, clamp). */
module Physics {

  /** A point or a vector in world units; y grows downwards, as on the screen. */
  datatype Vec2 = Vec2(x: real, y: real) {

    function Plus(other: Vec2): Vec2 {
      Vec2(x + other.x, y + other.y)
    }

    function Minus(other: Vec2): Vec2 {
      Vec2(x - other.x, y - other.y)
    }

    function Scale(k: real): Vec2 {
      Vec2(x * k, y * k)
    }

    /** The square of `length()`; comparisons are made on squares so that no
        square root is needed. */
    function LengthSquared(): (r: real)
      ensures r >= 0.0
    {
      x * x + y * y
    }
  }

  const Zero := Vec2(0.0, 0.0)

  /** The simulation parameters GRAVITY, THRUST_POWER, MAX_FUEL and
      FUEL_CONSUMPTION_RATE.  Their values live in a module that is not part of
      this model, so they are parameters here. */
  datatype Constants = Constants(
    gravity: real,
    thrustPower: real,
    maxFuel: real,
    fuelConsumptionRate: real)
  {
    /** The sign assumptions the properties about fuel rely on. */
    predicate FuelSane() {
      maxFuel >= 0.0 && fuelConsumptionRate >= 0.0
    }
  }

  /** f32::max on non-NaN operands. */
  function Max(a: real, b: real): (r: real)
    ensures r >= a && r >= b
    ensures r == a || r == b
  {
    if a >= b then a else b
  }

  /** f32::clamp: raise to `lo`, then lower to `hi`. */
  function Clamp(v: real, lo: real, hi: real): (r: real)
    requires lo <= hi
    ensures lo <= r <= hi
    ensures lo <= v <= hi ==> r == v
    ensures v < lo ==> r == lo
    ensures v > hi ==> r == hi
  {
    var raised := if v < lo then lo else v;
    if raised > hi then hi else raised
  }
}
