/** Values shared by every service: optional results and 3-vectors of reals. */
module Common {

  datatype Option<+T> = None | Some(value: T)

  /** A point or direction in world space (metres). */
  datatype Vec3 = Vec3(x: real, y: real, z: real)

  const Zero: Vec3 := Vec3(0.0, 0.0, 0.0)

  function Add(a: Vec3, b: Vec3): Vec3 {
    Vec3(a.x + b.x, a.y + b.y, a.z + b.z)
  }

  function Sub(a: Vec3, b: Vec3): Vec3 {
    Vec3(a.x - b.x, a.y - b.y, a.z - b.z)
  }

  function Scale(a: Vec3, k: real): Vec3 {
    Vec3(a.x * k, a.y * k, a.z * k)
  }

  function Dot(a: Vec3, b: Vec3): real {
    a.x * b.x + a.y * b.y + a.z * b.z
  }

  /** Squared Euclidean distance; `sqrt(DistSq(a, b)) < r` is written `r > 0 && DistSq(a, b) < r * r`. */
  function DistSq(a: Vec3, b: Vec3): real {
    Dot(Sub(a, b), Sub(a, b))
  }

  function Min(a: real, b: real): real {
    if a <= b then a else b
  }

  function Max(a: real, b: real): real {
    if a >= b then a else b
  }
}
