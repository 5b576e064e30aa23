/** Three-dimensional vectors over reals, standing in for `SIMD3<Float>`. */
module Vectors {

  datatype Vec3 = Vec3(x: real, y: real, z: real)

  function Sub(a: Vec3, b: Vec3): Vec3
  {
    Vec3(a.x - b.x, a.y - b.y, a.z - b.z)
  }

  function Dot(a: Vec3, b: Vec3): real
  {
    a.x * b.x + a.y * b.y + a.z * b.z
  }

  /** `SIMD3<Float>(repeating: v)`. */
  function Uniform(v: real): (r: Vec3)
    ensures r.x == r.y == r.z == v
  {
    Vec3(v, v, v)
  }

  /** The square of `simd_distance(a, b)`; comparing squares avoids a square root. */
  function SquaredDistance(a: Vec3, b: Vec3): real
  {
    var d := Sub(a, b);
    Dot(d, d)
  }

  /** `(a + b) / 2.0`. */
  function Midpoint(a: Vec3, b: Vec3): (m: Vec3)
    ensures SquaredDistance(a, m) == SquaredDistance(m, b)
  {
    Vec3((a.x + b.x) / 2.0, (a.y + b.y) / 2.0, (a.z + b.z) / 2.0)
  }

  /** A rotation of `angle` radians about `axis`, one factor of a quaternion product. */
  datatype AxisAngle = AxisAngle(angle: real, axis: Vec3)

  const YAxis: Vec3 := Vec3(0.0, 1.0, 0.0)
}
