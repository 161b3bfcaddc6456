/**
 The compute-divergence kernel: central-difference divergence of velocity,
 with a solid neighbour's velocity replaced by that obstacle's boundary
 velocity.
 */
module Divergence {
  import opened Vectors
  import opened Stencils

  /** The velocity a neighbour contributes: its `.rg`, or the obstacle's `.gb` when it is solid. */
  function EffectiveVelocity(v: Vec4, o: Vec4): Vec2 {
    if Solid(o) then BoundaryVelocity(o) else RG(v)
  }

  /** The divergence value itself, before it is written to the red channel. */
  function DivergenceValue(v: Stencil<Vec4>, o: Stencil<Vec4>, halfInverseCellSize: real): real {
    var vN := EffectiveVelocity(v.n, o.n);
    var vS := EffectiveVelocity(v.s, o.s);
    var vE := EffectiveVelocity(v.e, o.e);
    var vW := EffectiveVelocity(v.w, o.w);
    halfInverseCellSize * (vE.x - vW.x + vN.y - vS.y)
  }

  /**
   The compute-divergence shader: `v` are the velocity samples, `o` the
   obstacle samples. Only the red channel is written.
   */
  function DivergenceKernel(v: Stencil<Vec4>, o: Stencil<Vec4>, halfInverseCellSize: real): (r: Frag)
    ensures r.r.Written? && r.g == Unwritten && r.b == Unwritten && r.a == Unwritten
  {
    Frag(Written(DivergenceValue(v, o, halfInverseCellSize)), Unwritten, Unwritten, Unwritten)
  }

  /** The uniform the solver binds for a grid of spacing `cellSize`. */
  function HalfInverseCellSize(cellSize: real): real
    requires cellSize != 0.0
  {
    0.5 / cellSize
  }

  /** A velocity that is the same at all four fluid neighbours has zero divergence. */
  lemma UniformFlowIsDivergenceFree(v: Stencil<Vec4>, o: Stencil<Vec4>, halfInverseCellSize: real)
    requires NoSolidNeighbour(o)
    requires RG(v.n) == RG(v.s) == RG(v.e) == RG(v.w)
    ensures DivergenceKernel(v, o, halfInverseCellSize).r == Written(0.0)
  {
  }

  /**
   With fluid neighbours the value is the central difference
   (vE.x - vW.x + vN.y - vS.y) / (2 * cellSize) of the sampled velocities.
   */
  lemma OpenCellCentralDifference(v: Stencil<Vec4>, o: Stencil<Vec4>, cellSize: real)
    requires cellSize != 0.0
    requires NoSolidNeighbour(o)
    ensures DivergenceKernel(v, o, HalfInverseCellSize(cellSize)).r
            == Written((v.e.r - v.w.r + v.n.g - v.s.g) / (2.0 * cellSize))
  {
  }

  /**
   A solid neighbour's velocity sample never reaches the output: its obstacle's
   boundary velocity stands in for it.
   */
  lemma DivergenceIgnoresSolidNeighbours(v: Stencil<Vec4>, o: Stencil<Vec4>, h: real, q: Vec4)
    ensures Solid(o.n) ==> DivergenceKernel(v.(n := q), o, h) == DivergenceKernel(v, o, h)
    ensures Solid(o.s) ==> DivergenceKernel(v.(s := q), o, h) == DivergenceKernel(v, o, h)
    ensures Solid(o.e) ==> DivergenceKernel(v.(e := q), o, h) == DivergenceKernel(v, o, h)
    ensures Solid(o.w) ==> DivergenceKernel(v.(w := q), o, h) == DivergenceKernel(v, o, h)
  {
  }

  /**
   A solid neighbour contributes its obstacle's boundary velocity: the result
   equals that of the same stencil in which the neighbour is fluid and its
   velocity sample carries the obstacle's `.gb` as `.rg`.
   */
  lemma SolidNeighbourActsAsBoundaryFlow(v: Stencil<Vec4>, o: Stencil<Vec4>, h: real)
    ensures !Solid(Zero4)
    ensures Solid(o.n) ==>
              DivergenceKernel(v, o, h) == DivergenceKernel(v.(n := Vec4(o.n.g, o.n.b, 0.0, 0.0)), o.(n := Zero4), h)
    ensures Solid(o.s) ==>
              DivergenceKernel(v, o, h) == DivergenceKernel(v.(s := Vec4(o.s.g, o.s.b, 0.0, 0.0)), o.(s := Zero4), h)
    ensures Solid(o.e) ==>
              DivergenceKernel(v, o, h) == DivergenceKernel(v.(e := Vec4(o.e.g, o.e.b, 0.0, 0.0)), o.(e := Zero4), h)
    ensures Solid(o.w) ==>
              DivergenceKernel(v, o, h) == DivergenceKernel(v.(w := Vec4(o.w.g, o.w.b, 0.0, 0.0)), o.(w := Zero4), h)
  {
  }

  /** The kernel never samples the centre cell: neither its velocity nor its obstacle texel matters. */
  lemma DivergenceIgnoresCentre(v: Stencil<Vec4>, o: Stencil<Vec4>, h: real, q: Vec4, m: Vec4)
    ensures DivergenceKernel(v.(c := q), o.(c := m), h) == DivergenceKernel(v, o, h)
  {
  }
}
