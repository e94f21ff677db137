/** The few raylib value types the simulation uses: 2D vectors over reals
    (raylib's `Vector2` of `f32`), 8-bit RGBA colours, and the strict
    distance test `a.distance_to(b) < r`. */
module Raylib {

  /** An unsigned byte, the channel type of raylib's `Color`. */
  type U8 = x: int | 0 <= x < 256

  datatype Color = Color(r: U8, g: U8, b: U8, a: U8)

  datatype Vector2 = Vector2(x: real, y: real) {

    function Add(v: Vector2): Vector2 {
      Vector2(x + v.x, y + v.y)
    }

    function Scale(k: real): Vector2 {
      Vector2(x * k, y * k)
    }
  }

  /** The square of the Euclidean distance between two points. */
  function DistanceSquared(a: Vector2, b: Vector2): (r: real)
    ensures r >= 0.0
  {
    (a.x - b.x) * (a.x - b.x) + (a.y - b.y) * (a.y - b.y)
  }

  /** A vector of length 1, such as `angletovector(θ) = (cos θ, sin θ)`. */
  predicate IsUnit(v: Vector2) {
    v.x * v.x + v.y * v.y == 1.0
  }

  /** Moving away from `base` along a unit heading scaled by `f` lands at
      distance `|f|` from it. */
  lemma UnitKick(base: Vector2, heading: Vector2, f: real)
    requires IsUnit(heading)
    ensures DistanceSquared(base.Add(heading.Scale(f)), base) == f * f
  {
    var p := base.Add(heading.Scale(f));
    var dx, dy := heading.x * f, heading.y * f;
    assert p.x - base.x == dx && p.y - base.y == dy;
    assert dx * dx + dy * dy == (heading.x * heading.x + heading.y * heading.y) * (f * f);
  }

  /** `a.distance_to(b) < r`, stated without a square root: a distance is
      never negative, so the test fails for every `r <= 0`, and for a
      positive `r` it is the same as comparing squares. */
  predicate CloserThan(a: Vector2, b: Vector2, r: real) {
    0.0 < r && DistanceSquared(a, b) < r * r
  }

  /** The squared comparison agrees with the comparison of the distance
      itself: for `d` the non-negative square root of the squared distance,
      `CloserThan(a, b, r)` holds exactly when `d < r`. */
  lemma CloserThanIsDistanceTest(a: Vector2, b: Vector2, r: real, d: real)
    requires d >= 0.0 && d * d == DistanceSquared(a, b)
    ensures CloserThan(a, b, r) <==> d < r
  {
    if d < r {
      SquaresOrdered(d, r);
    } else if 0.0 < r {
      SquaresOrdered(r, d);
    }
  }

  /** Squaring keeps the order of non-negative reals (`x <= y` gives
      `x * x <= y * y`, and strictly so when `x < y`). */
  lemma SquaresOrdered(x: real, y: real)
    requires 0.0 <= x <= y
    ensures x * x <= y * y
    ensures x < y ==> x * x < y * y
  {
    var xx, xy, yy := x * x, x * y, y * y;
    assert xx <= xy by { assert x * (y - x) >= 0.0; }
    assert xy <= yy by { assert y * (y - x) >= 0.0; assert y * x == xy; }
    if x < y {
      assert xy < yy by { assert y * (y - x) > 0.0; assert y * x == xy; }
    }
  }
}
