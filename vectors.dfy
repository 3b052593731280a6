/** Three-component vectors over exact reals, as the mesh code uses them
    for positions, edge vectors and normals. */
module Vectors {

  datatype Vec3 = Vec3(x: real, y: real, z: real)

  const Zero := Vec3(0.0, 0.0, 0.0)

  function Add(a: Vec3, b: Vec3): Vec3
  {
    Vec3(a.x + b.x, a.y + b.y, a.z + b.z)
  }

  function Sub(a: Vec3, b: Vec3): Vec3
  {
    Vec3(a.x - b.x, a.y - b.y, a.z - b.z)
  }

  function Scale(s: real, a: Vec3): Vec3
  {
    Vec3(s * a.x, s * a.y, s * a.z)
  }

  function Dot(a: Vec3, b: Vec3): real
  {
    a.x * b.x + a.y * b.y + a.z * b.z
  }

  /** Component 0, 1 or 2 of a vector, the way the source indexes its
      three-element arrays. */
  function Component(v: Vec3, c: int): real
  {
    if c == 0 then v.x else if c == 1 then v.y else v.z
  }

  /** The cross product a × b. */
  function Cross(a: Vec3, b: Vec3): Vec3
  {
    Vec3(a.y * b.z - a.z * b.y, a.z * b.x - a.x * b.z, a.x * b.y - a.y * b.x)
  }

  /** a × b is perpendicular to both a and b. */
  lemma CrossPerpendicular(a: Vec3, b: Vec3)
    ensures Dot(Cross(a, b), a) == 0.0 && Dot(Cross(a, b), b) == 0.0
  {
  }

  /** The cross product is zero as soon as one factor is. */
  lemma CrossZero(a: Vec3, b: Vec3)
    requires a == Zero || b == Zero
    ensures Cross(a, b) == Zero
  {
  }

  lemma AddAssoc(a: Vec3, b: Vec3, c: Vec3)
    ensures Add(Add(a, b), c) == Add(a, Add(b, c))
  {
  }

  lemma AddZero(a: Vec3)
    ensures Add(a, Zero) == a && Add(Zero, a) == a
  {
  }
}
