/**
 GLSL-style vectors over the mathematical reals. A texel is a `Vec4`
 (channels r, g, b, a); a velocity or a texture coordinate is a `Vec2`; an
 impulse value or a force colour is a `Vec3`.
 */
module Vectors {

  datatype Vec2 = Vec2(x: real, y: real)
  datatype Vec3 = Vec3(x: real, y: real, z: real)
  datatype Vec4 = Vec4(r: real, g: real, b: real, a: real)

  const Zero2: Vec2 := Vec2(0.0, 0.0)
  const Zero3: Vec3 := Vec3(0.0, 0.0, 0.0)
  const Zero4: Vec4 := Vec4(0.0, 0.0, 0.0, 0.0)

  function Add2(u: Vec2, v: Vec2): Vec2 { Vec2(u.x + v.x, u.y + v.y) }
  function Sub2(u: Vec2, v: Vec2): Vec2 { Vec2(u.x - v.x, u.y - v.y) }
  function Scale2(k: real, v: Vec2): Vec2 { Vec2(k * v.x, k * v.y) }

  function Scale3(k: real, v: Vec3): Vec3 { Vec3(k * v.x, k * v.y, k * v.z) }

  function Add4(u: Vec4, v: Vec4): Vec4 { Vec4(u.r + v.r, u.g + v.g, u.b + v.b, u.a + v.a) }
  function Scale4(k: real, v: Vec4): Vec4 { Vec4(k * v.r, k * v.g, k * v.b, k * v.a) }

  /** The `.rg` swizzle, read as a 2-vector. */
  function RG(v: Vec4): Vec2 { Vec2(v.r, v.g) }

  /** Squared Euclidean distance; `distance` itself needs a square root. */
  function SqDistance(p: Vec2, q: Vec2): real {
    (p.x - q.x) * (p.x - q.x) + (p.y - q.y) * (p.y - q.y)
  }

  /** `d` is the Euclidean distance between `p` and `q`. */
  predicate IsDistance(d: real, p: Vec2, q: Vec2) {
    d >= 0.0 && d * d == SqDistance(p, q)
  }

  predicate NonNegative4(v: Vec4) {
    v.r >= 0.0 && v.g >= 0.0 && v.b >= 0.0 && v.a >= 0.0
  }

  /** Every channel of `u` is at most the matching channel of `v`. */
  predicate Below4(u: Vec4, v: Vec4) {
    u.r <= v.r && u.g <= v.g && u.b <= v.b && u.a <= v.a
  }
}
