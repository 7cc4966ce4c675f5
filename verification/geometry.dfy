/**
 * Plane geometry over reals, standing in for `System.Numerics.Vector2` and the helpers
 * of `PhysicsHelpers`. Lengths are never taken: every comparison of a length against a
 * bound is stated on squared lengths, which is exact for reals. The transcendental
 * functions are not modelled; they arrive as fields of a `Trig` value.
 */
module Geometry {
  import opened Wrappers

  datatype Vec = Vec(x: real, y: real)

  const Origin := Vec(0.0, 0.0)

  function Add(a: Vec, b: Vec): Vec { Vec(a.x + b.x, a.y + b.y) }

  function Sub(a: Vec, b: Vec): Vec { Vec(a.x - b.x, a.y - b.y) }

  function Scale(k: real, a: Vec): Vec { Vec(k * a.x, k * a.y) }

  /** `a.LengthSquared()`. */
  function Len2(a: Vec): real { a.x * a.x + a.y * a.y }

  /** `(a - b).LengthSquared()`. */
  function Dist2(a: Vec, b: Vec): real { Len2(Sub(a, b)) }

  /** `a.InRange(b, r)`, i.e. `(a - b).Length() <= r`, without the square root. */
  predicate Within(a: Vec, b: Vec, r: real) {
    0.0 <= r && Dist2(a, b) <= r * r
  }

  /** `(a - b).Length() > m`, without the square root. */
  predicate FartherThan(a: Vec, b: Vec, m: real) {
    m < 0.0 || Dist2(a, b) > m * m
  }

  /** The trigonometry the agents call, left uninterpreted. */
  datatype Trig = Trig(cos: real -> real, sin: real -> real, atan2: (real, real) -> real, pi: real)

  /** `a.AngleTo(b)`: heading from `a` towards `b`, or 0 for a missing `b`. */
  function AngleTo(t: Trig, a: Vec, b: Option<Vec>): real {
    match b
    case Some(p) => t.atan2(p.y - a.y, p.x - a.x)
    case None => 0.0
  }

  /** `a.AngleTo()`: heading from `a` towards the origin. */
  function AngleToOrigin(t: Trig, a: Vec): real {
    t.atan2(-a.y, -a.x)
  }

  /** The unit vector of a heading. */
  function Heading(t: Trig, angle: real): Vec {
    Vec(t.cos(angle), t.sin(angle))
  }

  lemma SquareNonNegative(r: real)
    ensures r * r >= 0.0
  {
    if r < 0.0 {
      assert r * r == (-r) * (-r);
    }
  }

  lemma ProductNonNegative(x: real, y: real)
    requires x >= 0.0 && y >= 0.0
    ensures x * y >= 0.0
  {
    if x > 0.0 && y > 0.0 {
      assert x * y > 0.0 * y;
    }
  }

  lemma Dist2NonNegative(a: Vec, b: Vec)
    ensures Dist2(a, b) >= 0.0
  {
    SquareNonNegative(a.x - b.x);
    SquareNonNegative(a.y - b.y);
  }
}
