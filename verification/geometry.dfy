/** Plane vectors with real coordinates: the points of java.awt.geom and the
    vector arithmetic the generator and the curve fit use. */
module Geometry {

  /** A point or a direction in the plane (java.awt.geom.Point2D and the
      geometry library's Vector2D share this shape). */
  datatype Vec = Vec(x: real, y: real)

  function Add(u: Vec, v: Vec): Vec
  {
    Vec(u.x + v.x, u.y + v.y)
  }

  function Sub(u: Vec, v: Vec): Vec
  {
    Vec(u.x - v.x, u.y - v.y)
  }

  function Scale(v: Vec, k: real): Vec
  {
    Vec(v.x * k, v.y * k)
  }

  function Div(v: Vec, k: real): Vec
    requires k != 0.0
  {
    Vec(v.x / k, v.y / k)
  }

  /** The midpoint of the segment from `a` to `b`, computed as (a + b) / 2. */
  function Mid(a: Vec, b: Vec): (m: Vec)
    ensures Sub(m, a) == Sub(b, m)
  {
    Div(Add(a, b), 2.0)
  }
}
