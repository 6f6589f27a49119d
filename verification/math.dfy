/** Vectors, spherical coordinates and the clamp shared by both camera controllers.
    Every `f32` of the controllers is a `real` here: the clamps and resets are stated
    over exact values, and IEEE rounding, infinities and NaN are not modelled. */
module Math {

  datatype Option<T> = None | Some(value: T)

  /** A screen position in pixels (cgmath `Vector2`). */
  datatype Vec2 = Vec2(x: real, y: real)

  /** A point or a direction in world space (cgmath `Point3` and `Vector3`). */
  datatype Vec3 = Vec3(x: real, y: real, z: real)

  /** A homogeneous vector (cgmath `Vector4`). */
  datatype Vec4 = Vec4(x: real, y: real, z: real, w: real)

  /** A 4x4 matrix stored column by column, as cgmath stores `Matrix4`. */
  datatype Matrix4 = Matrix4(x: Vec4, y: Vec4, z: Vec4, w: Vec4)

  /** Spherical coordinates of an offset from the orbit target: `phi` is the polar
      angle measured from +Y, `theta` the azimuth around +Y. */
  datatype Spherical = Spherical(radius: real, phi: real, theta: real)

  /** `std::f32::consts::PI`, the exact value of the nearest `f32` to pi. */
  const PI: real := 3.1415927410125732421875

  const Origin: Vec3 := Vec3(0.0, 0.0, 0.0)
  const NoMotion: Vec2 := Vec2(0.0, 0.0)
  const ZeroSpherical: Spherical := Spherical(0.0, 0.0, 0.0)

  function Add(a: Vec3, b: Vec3): Vec3 { Vec3(a.x + b.x, a.y + b.y, a.z + b.z) }
  function Sub(a: Vec3, b: Vec3): Vec3 { Vec3(a.x - b.x, a.y - b.y, a.z - b.z) }
  function Neg(a: Vec3): Vec3 { Vec3(-a.x, -a.y, -a.z) }
  function Scale(a: Vec3, k: real): Vec3 { Vec3(a.x * k, a.y * k, a.z * k) }
  function Dot(a: Vec3, b: Vec3): real { a.x * b.x + a.y * b.y + a.z * b.z }

  function Sub2(a: Vec2, b: Vec2): Vec2 { Vec2(a.x - b.x, a.y - b.y) }
  function Add2(a: Vec2, b: Vec2): Vec2 { Vec2(a.x + b.x, a.y + b.y) }

  /** The first three coordinates of a homogeneous vector. */
  function Xyz(v: Vec4): Vec3 { Vec3(v.x, v.y, v.z) }

  /** Matrix times column vector: the columns weighted by the vector's coordinates. */
  function Transform(m: Matrix4, v: Vec4): Vec4 {
    Vec4(m.x.x * v.x + m.y.x * v.y + m.z.x * v.z + m.w.x * v.w,
         m.x.y * v.x + m.y.y * v.y + m.z.y * v.z + m.w.y * v.w,
         m.x.z * v.x + m.y.z * v.y + m.z.z * v.z + m.w.z * v.w,
         m.x.w * v.x + m.y.w * v.y + m.z.w * v.z + m.w.w * v.w)
  }

  /** The translation by `t`, whose last column carries `t`. */
  function Translation(t: Vec3): Matrix4 {
    Matrix4(Vec4(1.0, 0.0, 0.0, 0.0), Vec4(0.0, 1.0, 0.0, 0.0),
            Vec4(0.0, 0.0, 1.0, 0.0), Vec4(t.x, t.y, t.z, 1.0))
  }

  /** `f32::to_radians`. */
  function ToRadians(degrees: real): real { degrees * (PI / 180.0) }

  function Abs(x: real): real { if x < 0.0 then -x else x }

  /** `num_traits::clamp`, which asserts `lo <= hi` and then saturates at either bound. */
  function Clamp(x: real, lo: real, hi: real): (r: real)
    requires lo <= hi
    ensures lo <= r <= hi
    ensures lo <= x <= hi ==> r == x
    ensures x < lo ==> r == lo
    ensures hi < x ==> r == hi
  {
    if x < lo then lo else if x > hi then hi else x
  }

  /** The clamped value is the point of `[lo, hi]` nearest to `x`. */
  lemma ClampIsNearest(x: real, lo: real, hi: real, y: real)
    requires lo <= hi
    requires lo <= y <= hi
    ensures Abs(Clamp(x, lo, hi) - x) <= Abs(y - x)
  {
  }
}
