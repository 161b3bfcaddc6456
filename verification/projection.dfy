/**
 The subtract-gradient kernel: the projection step that removes the
 pressure gradient from velocity, with each axis pinned to an obstacle's
 boundary velocity when a neighbour on that axis is solid.
 */
module Projection {
  import opened Vectors
  import opened Stencils
  import Divergence

  /**
   The shader's working state after the obstacle checks: the four neighbour
   pressures (a solid neighbour's replaced by the centre's), the boundary
   velocity `obstV` and the per-axis mask `vMask` (0 on an axis with a solid
   neighbour, 1 otherwise).
   */
  datatype Masking = Masking(pN: real, pS: real, pE: real, pW: real, obstV: Vec2, vMask: Vec2)

  /**
   The four obstacle checks, in the shader's order north, south, east, west;
   a later check overwrites what an earlier one wrote on the same axis.
   */
  function CheckObstacles(p: Stencil<Vec4>, o: Stencil<Vec4>): Masking {
    var pC := p.c.r;
    var m0 := Masking(p.n.r, p.s.r, p.e.r, p.w.r, Zero2, Vec2(1.0, 1.0));
    var m1 := if Solid(o.n) then m0.(pN := pC, obstV := m0.obstV.(y := o.n.b), vMask := m0.vMask.(y := 0.0)) else m0;
    var m2 := if Solid(o.s) then m1.(pS := pC, obstV := m1.obstV.(y := o.s.b), vMask := m1.vMask.(y := 0.0)) else m1;
    var m3 := if Solid(o.e) then m2.(pE := pC, obstV := m2.obstV.(x := o.e.g), vMask := m2.vMask.(x := 0.0)) else m2;
    var m4 := if Solid(o.w) then m3.(pW := pC, obstV := m3.obstV.(x := o.w.g), vMask := m3.vMask.(x := 0.0)) else m3;
    m4
  }

  /** Velocity after the gradient is subtracted and the mask and boundary velocity applied. */
  function ProjectedVelocity(v: Vec4, p: Stencil<Vec4>, o: Stencil<Vec4>, gradientScale: real): Vec2 {
    var m := CheckObstacles(p, o);
    var grad := Scale2(gradientScale, Vec2(m.pE - m.pW, m.pN - m.pS));
    var newV := Sub2(RG(v), grad);
    Vec2(m.vMask.x * newV.x + m.obstV.x, m.vMask.y * newV.y + m.obstV.y)
  }

  /**
   The subtract-gradient shader as written: `v` is the velocity texel at the
   cell, `p` the pressure samples (red channel used), `o` the obstacle
   samples. A solid cell writes only `.gb`; a fluid cell writes only `.rg`.
   */
  function SubtractGradientKernel(v: Vec4, p: Stencil<Vec4>, o: Stencil<Vec4>, gradientScale: real): (r: Frag)
    ensures Solid(o.c) ==> r == Frag(Unwritten, Written(o.c.g), Written(o.c.b), Unwritten)
    ensures !Solid(o.c) ==> r.r.Written? && r.g.Written? && r.b == Unwritten && r.a == Unwritten
  {
    if Solid(o.c) then Frag(Unwritten, Written(o.c.g), Written(o.c.b), Unwritten)
    else RGOnly(ProjectedVelocity(v, p, o, gradientScale))
  }

  /**
   Per-axis closed form of a fluid cell's x velocity: the west obstacle's
   boundary x when west is solid, else the east obstacle's when east is
   solid, else the old x minus the scaled east-west pressure difference.
   */
  function ExpectedX(v: Vec4, p: Stencil<Vec4>, o: Stencil<Vec4>, gradientScale: real): real {
    if Solid(o.w) then o.w.g
    else if Solid(o.e) then o.e.g
    else v.r - gradientScale * (p.e.r - p.w.r)
  }

  /** The same for y: south wins over north. */
  function ExpectedY(v: Vec4, p: Stencil<Vec4>, o: Stencil<Vec4>, gradientScale: real): real {
    if Solid(o.s) then o.s.b
    else if Solid(o.n) then o.n.b
    else v.g - gradientScale * (p.n.r - p.s.r)
  }

  /** The kernel agrees with the per-axis closed form at every fluid cell. */
  lemma SubtractGradientPerAxis(v: Vec4, p: Stencil<Vec4>, o: Stencil<Vec4>, gradientScale: real)
    requires !Solid(o.c)
    ensures SubtractGradientKernel(v, p, o, gradientScale).r == Written(ExpectedX(v, p, o, gradientScale))
    ensures SubtractGradientKernel(v, p, o, gradientScale).g == Written(ExpectedY(v, p, o, gradientScale))
  {
  }

  /**
   No penetration: on an axis with a solid neighbour the output component is
   that obstacle's boundary velocity whatever the velocity and pressure
   inputs are.
   */
  lemma SolidNeighbourPinsAxis(v: Vec4, p: Stencil<Vec4>, o: Stencil<Vec4>, gradientScale: real,
                               v': Vec4, p': Stencil<Vec4>)
    requires !Solid(o.c)
    ensures Solid(o.e) || Solid(o.w) ==>
              SubtractGradientKernel(v', p', o, gradientScale).r == SubtractGradientKernel(v, p, o, gradientScale).r
    ensures Solid(o.n) || Solid(o.s) ==>
              SubtractGradientKernel(v', p', o, gradientScale).g == SubtractGradientKernel(v, p, o, gradientScale).g
  {
    SubtractGradientPerAxis(v, p, o, gradientScale);
    SubtractGradientPerAxis(v', p', o, gradientScale);
  }

  /** Away from obstacles the kernel subtracts the central-difference pressure gradient. */
  lemma OpenCellSubtractsGradient(v: Vec4, p: Stencil<Vec4>, o: Stencil<Vec4>, gradientScale: real)
    requires !Solid(o.c) && NoSolidNeighbour(o)
    ensures SubtractGradientKernel(v, p, o, gradientScale)
            == RGOnly(Sub2(RG(v), Scale2(gradientScale, Vec2(p.e.r - p.w.r, p.n.r - p.s.r))))
  {
  }

  /** A uniform pressure leaves every fluid-bounded axis of the velocity unchanged. */
  lemma UniformPressureKeepsVelocity(v: Vec4, pressure: Vec4, o: Stencil<Vec4>, gradientScale: real)
    requires !Solid(o.c)
    ensures !Solid(o.e) && !Solid(o.w) ==>
              SubtractGradientKernel(v, Uniform(pressure), o, gradientScale).r == Written(v.r)
    ensures !Solid(o.n) && !Solid(o.s) ==>
              SubtractGradientKernel(v, Uniform(pressure), o, gradientScale).g == Written(v.g)
  {
    SubtractGradientPerAxis(v, Uniform(pressure), o, gradientScale);
  }

  /**
   The solid-cell branch as intended: both velocity channels take the cell's
   boundary velocity, the same value the divergence kernel substitutes for a
   solid neighbour. Every cell writes exactly the velocity channels `.rg`;
   a fluid cell gets the per-axis closed form.
   */
  function SubtractGradientIntended(v: Vec4, p: Stencil<Vec4>, o: Stencil<Vec4>, gradientScale: real): (r: Frag)
    ensures r.r.Written? && r.g.Written? && r.b == Unwritten && r.a == Unwritten
    ensures !Solid(o.c) ==> r == RGOnly(Vec2(ExpectedX(v, p, o, gradientScale), ExpectedY(v, p, o, gradientScale)))
  {
    if Solid(o.c) then RGOnly(BoundaryVelocity(o.c))
    else SubtractGradientKernel(v, p, o, gradientScale)
  }

  /**
   The intended kernel writes a solid cell's velocity channels with exactly
   the boundary velocity the divergence kernel reads for that obstacle.
   */
  lemma IntendedSolidCellIsBoundaryVelocity(v: Vec4, p: Stencil<Vec4>, o: Stencil<Vec4>,
                                           gradientScale: real, u: Vec4)
    requires Solid(o.c)
    ensures SubtractGradientIntended(v, p, o, gradientScale) == RGOnly(Divergence.EffectiveVelocity(u, o.c))
  {
  }

  /**
   The kernel as written shifts the solid-cell write by one channel: for an
   obstacle texel (1, 0.5, 0, 0) the velocity's x is left unwritten and its
   y receives 0.5, the obstacle's x boundary velocity, instead of 0.
   */
  lemma SolidCellChannelShift(v: Vec4, p: Stencil<Vec4>, gradientScale: real)
    ensures var o := Uniform(Vec4(1.0, 0.5, 0.0, 0.0));
            && SubtractGradientKernel(v, p, o, gradientScale).r == Unwritten
            && SubtractGradientKernel(v, p, o, gradientScale).g == Written(0.5)
            && BoundaryVelocity(o.c) == Vec2(0.5, 0.0)
            && SubtractGradientIntended(v, p, o, gradientScale) == RGOnly(Vec2(0.5, 0.0))
  {
  }
}
