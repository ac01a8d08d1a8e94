/**
  Three-component vectors and points over the reals: the part of the linear
  algebra library the camera uses for exact arithmetic (sums, differences,
  scaling). Single-precision rounding is not modelled.
 */
module Vectors {

  datatype Vec3 = Vec3(x: real, y: real, z: real)

  const Zero := Vec3(0.0, 0.0, 0.0)
  const UnitY := Vec3(0.0, 1.0, 0.0)

  function Add(a: Vec3, b: Vec3): Vec3 {
    Vec3(a.x + b.x, a.y + b.y, a.z + b.z)
  }

  function Sub(a: Vec3, b: Vec3): Vec3 {
    Vec3(a.x - b.x, a.y - b.y, a.z - b.z)
  }

  function Scale(a: Vec3, k: real): Vec3 {
    Vec3(a.x * k, a.y * k, a.z * k)
  }

  /** Scaling by zero gives the zero vector, which adds nothing. */
  lemma ScaleZero(v: Vec3, p: Vec3)
    ensures Scale(v, 0.0) == Zero
    ensures Add(p, Zero) == p && Sub(p, Zero) == p
  {
  }

  lemma AddAssociates(a: Vec3, b: Vec3, c: Vec3)
    ensures Add(Add(a, b), c) == Add(a, Add(b, c))
  {
  }

  /** Moving back along an axis is moving forward by the negated amount. */
  lemma SubIsAddNegated(p: Vec3, v: Vec3, k: real)
    ensures Sub(p, Scale(v, k)) == Add(p, Scale(v, -k))
  {
  }
}
