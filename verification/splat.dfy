/**
 The apply-impulse kernel: a disc of radius `Radius` around `Point` that
 carries `Value`, with an alpha that ramps from 0 at the rim to 1 two cells
 inside it. The blend that mixes this fragment into the target is set by the
 host graphics state and is not part of the kernel.
 */
module Splat {
  import opened Vectors

  /** `min((radius - d) * 0.5, 1.0)`. */
  function FalloffAlpha(d: real, radius: real): real {
    var a := (radius - d) * 0.5;
    if 1.0 < a then 1.0 else a
  }

  /**
   The apply-impulse shader at coordinate `st`; `d` is the Euclidean
   distance from `point` to `st`, which the shader computes with
   `distance`.
   */
  function ImpulseKernel(point: Vec2, st: Vec2, d: real, radius: real, value: Vec3): (r: Vec4)
    requires IsDistance(d, point, st)
    ensures d < radius ==> Vec3(r.r, r.g, r.b) == value && 0.0 < r.a <= 1.0
    ensures radius <= d ==> r == Zero4
    ensures radius <= 0.0 ==> r == Zero4
    ensures radius - 2.0 < d < radius ==> r.a == (radius - d) * 0.5
  {
    if d < radius then Vec4(value.x, value.y, value.z, FalloffAlpha(d, radius))
    else Zero4
  }

  /** The alpha never increases with the distance from the centre. */
  lemma FalloffMonotone(point: Vec2, st1: Vec2, d1: real, st2: Vec2, d2: real, radius: real, value: Vec3)
    requires IsDistance(d1, point, st1) && IsDistance(d2, point, st2)
    requires d1 <= d2
    ensures ImpulseKernel(point, st2, d2, radius, value).a <= ImpulseKernel(point, st1, d1, radius, value).a
  {
  }

  /** Cells at least two units inside the rim receive the value at full strength. */
  lemma FullStrengthCore(point: Vec2, st: Vec2, d: real, radius: real, value: Vec3)
    requires IsDistance(d, point, st)
    requires d <= radius - 2.0
    ensures ImpulseKernel(point, st, d, radius, value) == Vec4(value.x, value.y, value.z, 1.0)
  {
  }
}
