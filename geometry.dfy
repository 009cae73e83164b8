/**
  Plane vectors over exact reals. The engine works on 32-bit floats; this
  model does not round. Square roots (vector normalisation, distances) are
  never computed here: a direction that the game normalises is handed in
  from outside and is expected to be a unit vector or zero.
 */
module Geometry {

  datatype Vec2 = Vec2(x: real, y: real)

  /** A local scale, as written by `transform.localScale`. */
  datatype Vec3 = Vec3(x: real, y: real, z: real)

  const Zero: Vec2 := Vec2(0.0, 0.0)

  function Add(a: Vec2, b: Vec2): Vec2 {
    Vec2(a.x + b.x, a.y + b.y)
  }

  function Sub(a: Vec2, b: Vec2): Vec2 {
    Vec2(a.x - b.x, a.y - b.y)
  }

  function Scale(v: Vec2, k: real): Vec2 {
    Vec2(v.x * k, v.y * k)
  }

  function Neg(v: Vec2): Vec2 {
    Vec2(-v.x, -v.y)
  }

  /** The squared Euclidean length, which needs no square root. */
  function SqLength(v: Vec2): real {
    v.x * v.x + v.y * v.y
  }

  function Dot(a: Vec2, b: Vec2): real {
    a.x * b.x + a.y * b.y
  }

  predicate IsUnit(v: Vec2) {
    SqLength(v) == 1.0
  }

  /** Scaling a unit vector by `k` gives a vector of squared length `k*k`. */
  lemma ScaledUnitLength(v: Vec2, k: real)
    requires IsUnit(v)
    ensures SqLength(Scale(v, k)) == k * k
  {
    calc {
      SqLength(Scale(v, k));
      (v.x * k) * (v.x * k) + (v.y * k) * (v.y * k);
      { assert (v.x * k) * (v.x * k) == (v.x * v.x) * (k * k);
        assert (v.y * k) * (v.y * k) == (v.y * v.y) * (k * k); }
      (v.x * v.x + v.y * v.y) * (k * k);
      k * k;
    }
  }

  /** The component of `v * k` along a unit `v` is `k` itself. */
  lemma ScaledUnitAlong(v: Vec2, k: real)
    requires IsUnit(v)
    ensures Dot(Scale(v, k), v) == k
  {
    calc {
      Dot(Scale(v, k), v);
      (v.x * k) * v.x + (v.y * k) * v.y;
      { assert (v.x * k) * v.x == (v.x * v.x) * k;
        assert (v.y * k) * v.y == (v.y * v.y) * k; }
      (v.x * v.x + v.y * v.y) * k;
      k;
    }
  }
}
