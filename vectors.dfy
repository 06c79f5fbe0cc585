/**
 * Three-component vectors standing in for Unity's `Vector3` and `float3`.
 * Coordinates are reals: the model does not reproduce single-precision rounding.
 */
module Vectors {

  datatype Vec3 = Vec3(x: real, y: real, z: real)

  /** `Vector3.zero` */
  const Zero: Vec3 := Vec3(0.0, 0.0, 0.0)

  /** `Vector3.left` */
  const Left: Vec3 := Vec3(-1.0, 0.0, 0.0)

  function Add(a: Vec3, b: Vec3): Vec3
  {
    Vec3(a.x + b.x, a.y + b.y, a.z + b.z)
  }

  function Sub(a: Vec3, b: Vec3): Vec3
  {
    Vec3(a.x - b.x, a.y - b.y, a.z - b.z)
  }

  /** Scalar times vector, as in `stepSize * stepDirect`. */
  function Scale(k: real, v: Vec3): Vec3
  {
    Vec3(k * v.x, k * v.y, k * v.z)
  }
}
