/** Two-dimensional vectors as values. Every vector the sketch creates is a
    fresh object that is never shared between particles, so value semantics
    captures the in-place `add` of the vector library. Coordinates are reals:
    floating-point rounding is not modelled. */
module Vectors {

  datatype Vec2 = Vec2(x: real, y: real)

  const Zero: Vec2 := Vec2(0.0, 0.0)

  /** Componentwise sum, the effect of `v.add(w)` on `v`. */
  function Add(v: Vec2, w: Vec2): Vec2
  {
    Vec2(v.x + w.x, v.y + w.y)
  }
}
