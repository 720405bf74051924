/** The engine's vector values, reduced to exact real components. */
module Vectors {
  /** A 2D input axis value (Unity's Vector2). */
  datatype Vec2 = Vec2(x: real, y: real)

  /** A 3D displacement or velocity (Unity's Vector3). */
  datatype Vec3 = Vec3(x: real, y: real, z: real)

  /** Component-wise multiplication by a scalar (Vector3 * float). */
  function Scale(v: Vec3, k: real): Vec3
  {
    Vec3(v.x * k, v.y * k, v.z * k)
  }
}
