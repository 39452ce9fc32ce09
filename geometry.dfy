/** Vectors over the reals, standing in for glm::vec3 and glm::vec2. */
module Geometry {

  datatype Vec3 = Vec3(x: real, y: real, z: real)

  datatype Vec2 = Vec2(u: real, v: real)

  const Zero3: Vec3 := Vec3(0.0, 0.0, 0.0)

  function Abs(r: real): real {
    if r < 0.0 then -r else r
  }

  function Min(a: real, b: real): real {
    if a < b then a else b
  }

  function Add(a: Vec3, b: Vec3): Vec3 {
    Vec3(a.x + b.x, a.y + b.y, a.z + b.z)
  }

  function Sub(a: Vec3, b: Vec3): Vec3 {
    Vec3(a.x - b.x, a.y - b.y, a.z - b.z)
  }

  function Dot(a: Vec3, b: Vec3): real {
    a.x * b.x + a.y * b.y + a.z * b.z
  }

  /** The cross product u × v. */
  function Cross(u: Vec3, v: Vec3): Vec3 {
    Vec3(u.y * v.z - u.z * v.y, u.z * v.x - u.x * v.z, u.x * v.y - u.y * v.x)
  }

  /** u × v is perpendicular to both of its operands. */
  lemma CrossPerpendicular(u: Vec3, v: Vec3)
    ensures Dot(Cross(u, v), u) == 0.0 && Dot(Cross(u, v), v) == 0.0
  {
  }

  /** A square root as the caller's library computes it: `sqrt(a)` is the
      non-negative number whose square is `a`. */
  ghost predicate IsSqrtAt(sqrt: real -> real, a: real) {
    sqrt(a) >= 0.0 && sqrt(a) * sqrt(a) == a
  }
}
