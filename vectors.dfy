/** Three-component vectors and 4x4 placement matrices, only as far as the
    physics of the rooms reads or writes them.  Everything else the toolkit's
    `Vector` and `Mat4` classes offer (rotations, inverses, products) is not part
    of this model; where the scenes use it, the result is an input. */
module Vectors {

  datatype Vec3 = Vec3(x: real, y: real, z: real)

  /** The index of a component: `v[0]`, `v[1]`, `v[2]`. */
  datatype Axis = X | Y | Z

  function Get(v: Vec3, a: Axis): real
  {
    match a
    case X => v.x
    case Y => v.y
    case Z => v.z
  }

  /** `v[a] = r` on a copy of `v`. */
  function With(v: Vec3, a: Axis, r: real): (w: Vec3)
    ensures Get(w, a) == r
    ensures forall b :: b != a ==> Get(w, b) == Get(v, b)
  {
    match a
    case X => v.(x := r)
    case Y => v.(y := r)
    case Z => v.(z := r)
  }

  function Plus(u: Vec3, v: Vec3): Vec3
  {
    Vec3(u.x + v.x, u.y + v.y, u.z + v.z)
  }

  function Times(v: Vec3, s: real): Vec3
  {
    Vec3(v.x * s, v.y * s, v.z * s)
  }

  function Dot(u: Vec3, v: Vec3): real
  {
    u.x * v.x + u.y * v.y + u.z * v.z
  }

  const Zero: Vec3 := Vec3(0.0, 0.0, 0.0)

  datatype Vec4 = Vec4(x: real, y: real, z: real, w: real)

  /** A 4x4 matrix, row by row. */
  datatype Mat4 = Mat4(r0: Vec4, r1: Vec4, r2: Vec4, r3: Vec4)

  /** `m.times(vec4(0, 0, 0, 1)).to3()`: where the placement `m` puts the origin. */
  function Origin(m: Mat4): Vec3
  {
    Vec3(m.r0.w, m.r1.w, m.r2.w)
  }

  /** `Mat4.translation(p.x, p.y, p.z)`. */
  function Translation(p: Vec3): (m: Mat4)
    ensures Origin(m) == p
    ensures m.r3 == Vec4(0.0, 0.0, 0.0, 1.0)
  {
    Mat4(Vec4(1.0, 0.0, 0.0, p.x),
         Vec4(0.0, 1.0, 0.0, p.y),
         Vec4(0.0, 0.0, 1.0, p.z),
         Vec4(0.0, 0.0, 0.0, 1.0))
  }
}
