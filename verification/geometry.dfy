/** Plane positions and the interest-radius test.

    The game measures `eucDistance(a, b) < radius`, a square root of the
    squared distance compared strictly against the radius. The model keeps
    the comparison exact by comparing squares instead, which is only sound
    for a positive radius; a radius at or below zero admits nothing, since a
    distance is never negative. */
module Geometry {

  datatype Vec2 = Vec2(x: real, y: real)

  /** The radius the game uses for both interest queries when no override is
      configured; the queries here take the radius as a parameter. */
  const DefaultRadius: real := 1250.0

  function SqDist(a: Vec2, b: Vec2): real
  {
    (a.x - b.x) * (a.x - b.x) + (a.y - b.y) * (a.y - b.y)
  }

  /** `b` lies strictly inside the circle of radius `radius` around `a`. */
  predicate WithinRadius(a: Vec2, b: Vec2, radius: real)
  {
    0.0 < radius && SqDist(a, b) < radius * radius
  }

  /** The squared test agrees with the source's test on the true distance:
      for the non-negative `d` with `d * d` the squared distance (that is,
      the square root), `d < radius` holds exactly when `WithinRadius` does. */
  lemma DistanceTest(a: Vec2, b: Vec2, d: real, radius: real)
    requires 0.0 <= d && d * d == SqDist(a, b)
    ensures d < radius <==> WithinRadius(a, b, radius)
  {
    if d < radius {
      var dd, dr, rr := d * d, d * radius, radius * radius;
      assert dd <= dr;
      assert dr < rr;
    } else if 0.0 < radius {
      var dd, dr, rr := d * d, d * radius, radius * radius;
      assert rr <= dr;
      assert dr <= dd;
    }
  }

  /** A point at exactly the radius is outside: the test is strict. */
  lemma BoundaryExcluded(a: Vec2, b: Vec2, radius: real)
    requires SqDist(a, b) == radius * radius
    ensures !WithinRadius(a, b, radius)
  {
  }

  /** Being in range is mutual. */
  lemma WithinRadiusSymmetric(a: Vec2, b: Vec2, radius: real)
    ensures WithinRadius(a, b, radius) == WithinRadius(b, a, radius)
  {
  }

  /** Growing the radius never drops a point. */
  lemma WithinRadiusMonotone(a: Vec2, b: Vec2, r1: real, r2: real)
    requires r1 <= r2
    requires WithinRadius(a, b, r1)
    ensures WithinRadius(a, b, r2)
  {
    assert r1 * r1 <= r1 * r2 <= r2 * r2;
  }
}
