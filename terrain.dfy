/** The terrain: a seeded step-function height profile, sparse obstacles, the
    interpolated ground-height query and the obstacle overlap test
    (src/terrain.rs). */
module Terrains {
  import opened Physics
  import opened Rovers

  const SegmentWidth := 50.0
  const NumSegments := 500
  const BaseHeight := 500.0
  const MinHeight := 400.0
  const MaxHeight := 650.0
  /** The height is perturbed at every index that is a nonzero multiple of this. */
  const StepEvery := 10
  /** Perturbations are drawn from [-MaxDelta, MaxDelta). */
  const MaxDelta := 50.0
  /** Obstacles are placed only at indices in [ObstacleMargin, NumSegments - ObstacleMargin). */
  const ObstacleMargin := 5
  const ObstacleChance := 0.05
  /** An obstacle's centre is this far above the ground: [MinOffset, MaxOffset). */
  const MinOffset := 30.0
  const MaxOffset := 80.0
  const MinObstacleRadius := 20.0
  const MaxObstacleRadius := 40.0
  /** What `get_ground_y` answers beyond the last sample. */
  const PastEndHeight := 500.0
  /** How many draws the height pass takes: one per nonzero multiple of
      StepEvery below NumSegments.  The obstacle pass starts with the next draw. */
  const HeightDraws := (NumSegments - 1) / StepEvery

  /** One raw draw of the seeded generator: a real in [0, 1). */
  type Unit = r: real | 0.0 <= r < 1.0

  /** The generator's output, draw after draw; the seed fixes it, so every
      generation from the same stream gives the same terrain. */
  type Draws = nat -> Unit

  /** `rng.gen_range(lo..hi)` for floats: a raw draw scaled into [lo, hi). */
  function GenRange(lo: real, hi: real, u: Unit): (r: real)
    requires lo < hi
    ensures lo <= r < hi
  {
    lo + Fraction(hi - lo, u)
  }

  /** The share `u` of a positive width `w`. */
  function Fraction(w: real, u: Unit): (r: real)
    requires w > 0.0
    ensures 0.0 <= r < w
  {
    var rest := 1.0 - u;
    assert w * rest > 0.0;
    w * u
  }

  /** `rng.gen_bool(p)`: true with probability p. */
  predicate GenBool(p: real, u: Unit) {
    u < p
  }

  datatype Obstacle = Obstacle(position: Vec2, radius: real)

  /** The segment width is a private field of the source that always holds
      SegmentWidth, so it is a constant here. */
  datatype Terrain = Terrain(groundPoints: seq<real>, obstacles: seq<Obstacle>)

  // ---------------------------------------------------------------------------
  // Generation

  /** The value of `current_y` pushed at index `i` of the height pass. */
  function HeightAt(draws: Draws, i: nat): (h: real)
    ensures MinHeight <= h <= MaxHeight
  {
    if i == 0 then BaseHeight
    else if i % StepEvery == 0 then
      Clamp(HeightAt(draws, i - 1) + GenRange(-MaxDelta, MaxDelta, draws(i / StepEvery - 1)), MinHeight, MaxHeight)
    else HeightAt(draws, i - 1)
  }

  function Heights(draws: Draws): seq<real> {
    seq(NumSegments, i requires 0 <= i => HeightAt(draws, i))
  }

  /** The obstacles the scan places from index `i` on, when the generator's
      next draw is number `next`: one draw decides each index, and a placed
      obstacle takes two more (its height offset, then its radius). */
  function ObstaclesFrom(points: seq<real>, draws: Draws, i: nat, next: nat): seq<Obstacle>
    requires |points| == NumSegments
    decreases NumSegments - i
  {
    if i >= NumSegments - ObstacleMargin then []
    else if GenBool(ObstacleChance, draws(next)) then
      var y := points[i] - GenRange(MinOffset, MaxOffset, draws(next + 1));
      var radius := GenRange(MinObstacleRadius, MaxObstacleRadius, draws(next + 2));
      [Obstacle(Vec2(i as real * SegmentWidth, y), radius)] + ObstaclesFrom(points, draws, i + 1, next + 3)
    else ObstaclesFrom(points, draws, i + 1, next + 1)
  }

  /** `Terrain::new` as a function of the generator's output. */
  function Generate(draws: Draws): Terrain {
    var points := Heights(draws);
    Terrain(points, ObstaclesFrom(points, draws, ObstacleMargin, HeightDraws))
  }

  /** Obstacle `o` stands over sample `j`: at its x, strictly above the ground
      by an offset in [MinOffset, MaxOffset), with a radius in range. */
  ghost predicate SitsAt(o: Obstacle, points: seq<real>, j: int) {
    0 <= j < |points| &&
    o.position.x == j as real * SegmentWidth &&
    MinOffset <= points[j] - o.position.y < MaxOffset &&
    MinObstacleRadius <= o.radius < MaxObstacleRadius
  }

  /** Obstacle `o` stands over some sample at an index in [lo, NumSegments - ObstacleMargin). */
  ghost predicate PlacedFrom(o: Obstacle, points: seq<real>, lo: int) {
    exists j :: lo <= j < NumSegments - ObstacleMargin && SitsAt(o, points, j)
  }

  ghost predicate ObstaclesPlacedFrom(obstacles: seq<Obstacle>, points: seq<real>, lo: int) {
    (forall k :: 0 <= k < |obstacles| ==> PlacedFrom(obstacles[k], points, lo)) &&
    (forall k1, k2 :: 0 <= k1 < k2 < |obstacles| ==> obstacles[k1].position.x < obstacles[k2].position.x)
  }

  /** What generation promises about a terrain. */
  ghost predicate WellFormed(t: Terrain) {
    var points := t.groundPoints;
    |points| == NumSegments &&
    points[0] == BaseHeight &&
    (forall i :: 0 <= i < |points| ==> MinHeight <= points[i] <= MaxHeight) &&
    (forall i :: 0 < i < |points| && i % StepEvery != 0 ==> points[i] == points[i - 1]) &&
    (forall i :: 0 < i < |points| ==> -MaxDelta <= points[i] - points[i - 1] < MaxDelta) &&
    ObstaclesPlacedFrom(t.obstacles, points, ObstacleMargin)
  }

  /** `Terrain::new`: all heights first, then the obstacle scan in ascending
      index, consuming the draws in that order. */
  method GenerateTerrain(draws: Draws) returns (t: Terrain)
    ensures t == Generate(draws)
    ensures WellFormed(t)
  {
    var points, next := GenerateHeights(draws);
    var obstacles := PlaceObstacles(points, draws, next);
    t := Terrain(points, obstacles);
    GeneratedWellFormed(draws);
  }

  /** The height pass of `Terrain::new`: a running height, perturbed and
      clamped at every nonzero multiple of StepEvery, pushed once per index.
      `next` is the number of draws it consumed. */
  method GenerateHeights(draws: Draws) returns (points: seq<real>, next: nat)
    ensures points == Heights(draws)
    ensures next == HeightDraws
  {
    points := [];
    var currentY := BaseHeight;
    next := 0;
    for i := 0 to NumSegments
      invariant |points| == i
      invariant forall k :: 0 <= k < i ==> points[k] == HeightAt(draws, k)
      invariant currentY == if i == 0 then BaseHeight else HeightAt(draws, i - 1)
      invariant next == DrawsBefore(i)
    {
      DrawsStep(i);
      if i > 0 && i % StepEvery == 0 {
        currentY := currentY + GenRange(-MaxDelta, MaxDelta, draws(next));
        next := next + 1;
        currentY := Clamp(currentY, MinHeight, MaxHeight);
      }
      points := points + [currentY];
    }
  }

  /** The number of height draws taken before index `i` is pushed. */
  function DrawsBefore(i: nat): nat {
    if i == 0 then 0 else (i - 1) / StepEvery
  }

  lemma DrawsStep(i: nat)
    ensures i > 0 && i % StepEvery == 0 ==>
      DrawsBefore(i) == i / StepEvery - 1 && DrawsBefore(i + 1) == DrawsBefore(i) + 1
    ensures !(i > 0 && i % StepEvery == 0) ==> DrawsBefore(i + 1) == DrawsBefore(i)
  {
  }

  /** The obstacle pass of `Terrain::new`, starting at draw `next`: one draw
      decides each index, a placed obstacle takes two more. */
  method PlaceObstacles(points: seq<real>, draws: Draws, start: nat) returns (obstacles: seq<Obstacle>)
    requires |points| == NumSegments
    ensures obstacles == ObstaclesFrom(points, draws, ObstacleMargin, start)
  {
    obstacles := [];
    var next := start;
    for i := ObstacleMargin to NumSegments - ObstacleMargin
      invariant obstacles + ObstaclesFrom(points, draws, i, next)
             == ObstaclesFrom(points, draws, ObstacleMargin, start)
    {
      var place := GenBool(ObstacleChance, draws(next));
      next := next + 1;
      if place {
        var x := i as real * SegmentWidth;
        var groundY := points[i];
        var obstacleY := groundY - GenRange(MinOffset, MaxOffset, draws(next));
        next := next + 1;
        var radius := GenRange(MinObstacleRadius, MaxObstacleRadius, draws(next));
        next := next + 1;
        obstacles := obstacles + [Obstacle(Vec2(x, obstacleY), radius)];
      }
    }
  }

  /** Every terrain the generator can produce is well formed. */
  lemma GeneratedWellFormed(draws: Draws)
    ensures WellFormed(Generate(draws))
  {
    var points := Heights(draws);
    forall i | 0 < i < |points|
      ensures -MaxDelta <= points[i] - points[i - 1] < MaxDelta
    {
      HeightStep(draws, i);
    }
    ObstaclesPlaced(points, draws, ObstacleMargin, HeightDraws);
  }

  /** A perturbation moves the height by less than MaxDelta either way, even
      when the clamp cuts it short. */
  lemma HeightStep(draws: Draws, i: nat)
    requires i > 0
    ensures -MaxDelta <= HeightAt(draws, i) - HeightAt(draws, i - 1) < MaxDelta
  {
  }

  /** The scan from index `i` places obstacles only over samples `j >= i`, each
      sitting as generation promises, in strictly ascending x. */
  lemma {:induction false} ObstaclesPlaced(points: seq<real>, draws: Draws, i: nat, next: nat)
    requires |points| == NumSegments
    ensures ObstaclesPlacedFrom(ObstaclesFrom(points, draws, i, next), points, i)
    decreases NumSegments - i
  {
    if i < NumSegments - ObstacleMargin {
      if GenBool(ObstacleChance, draws(next)) {
        var obs := ObstaclesFrom(points, draws, i, next);
        ObstaclesPlaced(points, draws, i + 1, next + 3);
        PrependPlaced(obs[0], ObstaclesFrom(points, draws, i + 1, next + 3), points, i);
      } else {
        ObstaclesPlaced(points, draws, i + 1, next + 1);
        PlacedFromLower(ObstaclesFrom(points, draws, i + 1, next + 1), points, i);
      }
    }
  }

  /** An obstacle over sample `i`, put in front of obstacles placed from `i + 1`. */
  lemma PrependPlaced(o: Obstacle, rest: seq<Obstacle>, points: seq<real>, i: int)
    requires i < NumSegments - ObstacleMargin && SitsAt(o, points, i)
    requires ObstaclesPlacedFrom(rest, points, i + 1)
    ensures ObstaclesPlacedFrom([o] + rest, points, i)
  {
    var obs := [o] + rest;
    forall k | 0 <= k < |obs|
      ensures PlacedFrom(obs[k], points, i)
    {
      if k > 0 {
        assert obs[k] == rest[k - 1];
        var j :| i + 1 <= j < NumSegments - ObstacleMargin && SitsAt(rest[k - 1], points, j);
      }
    }
    forall k1, k2 | 0 <= k1 < k2 < |obs|
      ensures obs[k1].position.x < obs[k2].position.x
    {
      assert obs[k2] == rest[k2 - 1];
      if k1 == 0 {
        var j :| i + 1 <= j < NumSegments - ObstacleMargin && SitsAt(rest[k2 - 1], points, j);
      } else {
        assert obs[k1] == rest[k1 - 1];
      }
    }
  }

  lemma PlacedFromLower(obs: seq<Obstacle>, points: seq<real>, i: int)
    requires ObstaclesPlacedFrom(obs, points, i + 1)
    ensures ObstaclesPlacedFrom(obs, points, i)
  {
    forall k | 0 <= k < |obs|
      ensures PlacedFrom(obs[k], points, i)
    {
      assert PlacedFrom(obs[k], points, i + 1);
      var j :| i + 1 <= j < NumSegments - ObstacleMargin && SitsAt(obs[k], points, j);
    }
  }

  // ---------------------------------------------------------------------------
  // Ground height

  /** `(x / segment_width) as usize`: the quotient truncated toward zero,
      saturating at 0 for negative x. */
  function SegmentIndex(x: real): (seg: nat)
    ensures x >= 0.0 ==> seg as real * SegmentWidth <= x < (seg as real + 1.0) * SegmentWidth
    ensures x < 0.0 ==> seg == 0
  {
    if x < 0.0 then 0 else (x / SegmentWidth).Floor
  }

  /** `x % segment_width` on floats: the remainder of the quotient truncated
      toward zero, so it has the sign of x. */
  function SegmentOffset(x: real): (r: real)
    ensures x >= 0.0 ==> r == x - SegmentIndex(x) as real * SegmentWidth && 0.0 <= r < SegmentWidth
    ensures x < 0.0 ==> -SegmentWidth < r <= 0.0
  {
    var q := x / SegmentWidth;
    var truncated := if q >= 0.0 then q.Floor else -((-q).Floor);
    x - SegmentWidth * truncated as real
  }

  /** `get_ground_y`: the ground's height under x, interpolated linearly within
      a segment, the last sample held over the last segment, and PastEndHeight
      beyond the samples. */
  function GroundY(t: Terrain, x: real): real {
    var points := t.groundPoints;
    var segment := SegmentIndex(x);
    if segment >= |points| then PastEndHeight
    else if segment + 1 < |points| then
      var frac := SegmentOffset(x) / SegmentWidth;
      Lerp(points[segment], points[segment + 1], frac)
    else points[segment]
  }

  /** At a sample's own x the query returns that sample exactly. */
  lemma GroundYAtSample(t: Terrain, i: nat)
    requires i < |t.groundPoints|
    ensures GroundY(t, i as real * SegmentWidth) == t.groundPoints[i]
  {
  }

  /** Halfway between two samples the query returns their mean. */
  lemma GroundYMidpoint(t: Terrain, i: nat)
    requires i + 1 < |t.groundPoints|
    ensures GroundY(t, i as real * SegmentWidth + SegmentWidth / 2.0)
            == (t.groundPoints[i] + t.groundPoints[i + 1]) / 2.0
  {
  }

  /** Inside an interior segment the query lies between the segment's two
      end samples. */
  lemma GroundYBetween(t: Terrain, x: real)
    requires 0.0 <= x < (|t.groundPoints| - 1) as real * SegmentWidth
    ensures var seg := SegmentIndex(x);
      seg + 1 < |t.groundPoints| &&
      var y1, y2 := t.groundPoints[seg], t.groundPoints[seg + 1];
      (y1 <= y2 ==> y1 <= GroundY(t, x) <= y2) &&
      (y2 <= y1 ==> y2 <= GroundY(t, x) <= y1)
  {
  }

  /** `y1 + (y2 - y1) * frac`, the straight line between two samples. */
  function Lerp(y1: real, y2: real, frac: real): (r: real)
    ensures 0.0 <= frac <= 1.0 ==> (y1 <= y2 ==> y1 <= r <= y2) && (y2 <= y1 ==> y2 <= r <= y1)
  {
    var rise := y2 - y1;
    var share := rise * frac;
    var rest := 1.0 - frac;
    assert share + rise * rest == rise;
    assert 0.0 <= frac <= 1.0 ==> (rise >= 0.0 ==> share >= 0.0 && rise * rest >= 0.0);
    assert 0.0 <= frac <= 1.0 ==> (rise <= 0.0 ==> (-rise) * frac >= 0.0 && (-rise) * rest >= 0.0);
    y1 + share
  }

  /** Over the last segment the query holds the last sample; it does not
      extrapolate. */
  lemma GroundYLastSegment(t: Terrain, x: real)
    requires |t.groundPoints| > 0
    requires (|t.groundPoints| - 1) as real * SegmentWidth <= x < |t.groundPoints| as real * SegmentWidth
    ensures GroundY(t, x) == t.groundPoints[|t.groundPoints| - 1]
  {
  }

  /** Beyond the samples the query answers PastEndHeight, whatever the last
      sample is. */
  lemma GroundYPastEnd(t: Terrain, x: real)
    requires x >= |t.groundPoints| as real * SegmentWidth
    ensures GroundY(t, x) == PastEndHeight
  {
  }

  /** Over a well-formed terrain the ground is inside the height band at every
      x >= 0. */
  lemma GroundYInBand(t: Terrain, x: real)
    requires WellFormed(t) && x >= 0.0
    ensures MinHeight <= GroundY(t, x) <= MaxHeight
  {
    var n := |t.groundPoints|;
    if x < (n - 1) as real * SegmentWidth {
      GroundYBetween(t, x);
    } else if x < n as real * SegmentWidth {
      GroundYLastSegment(t, x);
    } else {
      GroundYPastEnd(t, x);
    }
  }

  // ---------------------------------------------------------------------------
  // Obstacle collision

  /** The circle at `center` with `radius` overlaps obstacle `o`: the distance
      of the centres is below the sum of the radii, compared on squares. */
  predicate Overlaps(center: Vec2, radius: real, o: Obstacle) {
    var reach := radius + o.radius;
    0.0 < reach && center.Minus(o.position).LengthSquared() < reach * reach
  }

  predicate Collides(t: Terrain, center: Vec2, radius: real) {
    exists k :: 0 <= k < |t.obstacles| && Overlaps(center, radius, t.obstacles[k])
  }

  /** The square comparison is exactly the source's `length() < r1 + r2`, for
      whatever radii. */
  lemma OverlapsIffCloserThanReach(center: Vec2, radius: real, o: Obstacle, distance: real)
    requires distance >= 0.0 && distance * distance == center.Minus(o.position).LengthSquared()
    ensures Overlaps(center, radius, o) <==> distance < radius + o.radius
  {
    var reach := radius + o.radius;
    if 0.0 < reach {
      var gap, span := reach - distance, reach + distance;
      assert gap * span == reach * reach - distance * distance;
      if distance < reach {
        assert gap > 0.0 && span > 0.0;
        assert gap * span > 0.0;
      } else {
        assert -gap >= 0.0 && span > 0.0;
        assert (-gap) * span >= 0.0;
      }
    }
  }

  /** `check_obstacle_collision`: scan the obstacles in order and stop at the
      first one the rover overlaps. */
  method CheckObstacleCollision(t: Terrain, rover: Rover) returns (hit: bool)
    ensures hit == Collides(t, rover.position, rover.radius)
  {
    for k := 0 to |t.obstacles|
      invariant forall j :: 0 <= j < k ==> !Overlaps(rover.position, rover.radius, t.obstacles[j])
    {
      if Overlaps(rover.position, rover.radius, t.obstacles[k]) {
        return true;
      }
    }
    return false;
  }
}
