/**
 The Jacobi kernel: one relaxation sweep of the discrete pressure Poisson
 equation on the 4-neighbour stencil, with a zero-gradient condition at
 solid faces.
 */
module Relaxation {
  import opened Vectors
  import opened Stencils

  /** The pressure a neighbour contributes: the centre pressure when that neighbour is solid. */
  function Neighbour(p: Vec4, o: Vec4, pC: Vec4): Vec4 {
    if Solid(o) then pC else p
  }

  /** Sum of the four neighbour pressures after solid substitution. */
  function NeighbourSum(p: Stencil<Vec4>, o: Stencil<Vec4>): Vec4 {
    Add4(Add4(Add4(Neighbour(p.w, o.w, p.c), Neighbour(p.e, o.e, p.c)),
              Neighbour(p.s, o.s, p.c)),
         Neighbour(p.n, o.n, p.c))
  }

  /**
   The jacobi shader: `p` holds the pressure samples, `o` the obstacle
   samples, `bC` the divergence texel at the cell; `alpha` and `inverseBeta`
   are its uniforms.
   */
  function JacobiKernel(p: Stencil<Vec4>, o: Stencil<Vec4>, bC: Vec4,
                        alpha: real, inverseBeta: real): (r: Vec4)
    ensures (Solid(o.n) && Solid(o.s) && Solid(o.e) && Solid(o.w) && bC == Zero4 && inverseBeta == 0.25)
            ==> r == p.c
  {
    Scale4(inverseBeta, Add4(NeighbourSum(p, o), Scale4(alpha, bC)))
  }

  /** The uniforms the solver binds for a grid of spacing `cellSize`. */
  function JacobiAlpha(cellSize: real): real { -cellSize * cellSize }
  const JacobiInverseBeta: real := 0.25

  /** A uniform pressure with zero divergence is a fixed point, whatever the obstacles. */
  lemma JacobiUniformFixedPoint(pressure: Vec4, o: Stencil<Vec4>, alpha: real)
    ensures JacobiKernel(Uniform(pressure), o, Zero4, alpha, JacobiInverseBeta) == pressure
  {
  }

  /**
   The discrete Laplacian at the cell, solid faces contributing zero
   gradient: the neighbour sum minus four times the centre.
   */
  function Laplacian(p: Stencil<Vec4>, o: Stencil<Vec4>): Vec4 {
    Add4(NeighbourSum(p, o), Scale4(-4.0, p.c))
  }

  /**
   The cell is left unchanged by a sweep exactly when it satisfies the
   discrete Poisson equation Laplacian(p) = cellSize^2 * divergence.
   */
  lemma JacobiFixedPointSolvesPoisson(p: Stencil<Vec4>, o: Stencil<Vec4>, bC: Vec4, cellSize: real)
    ensures JacobiKernel(p, o, bC, JacobiAlpha(cellSize), JacobiInverseBeta) == p.c
            <==> Laplacian(p, o) == Scale4(cellSize * cellSize, bC)
  {
    var h2 := cellSize * cellSize;
    var sum := NeighbourSum(p, o);
    assert JacobiAlpha(cellSize) * bC.r == -(h2 * bC.r);
    assert JacobiAlpha(cellSize) * bC.g == -(h2 * bC.g);
    assert JacobiAlpha(cellSize) * bC.b == -(h2 * bC.b);
    assert JacobiAlpha(cellSize) * bC.a == -(h2 * bC.a);
  }

  /**
   A solid neighbour's own pressure sample never reaches the output: replacing
   it by any other value gives the same result.
   */
  lemma JacobiIgnoresSolidNeighbours(p: Stencil<Vec4>, o: Stencil<Vec4>, bC: Vec4,
                                     alpha: real, inverseBeta: real, q: Vec4)
    ensures Solid(o.n) ==> JacobiKernel(p.(n := q), o, bC, alpha, inverseBeta) == JacobiKernel(p, o, bC, alpha, inverseBeta)
    ensures Solid(o.s) ==> JacobiKernel(p.(s := q), o, bC, alpha, inverseBeta) == JacobiKernel(p, o, bC, alpha, inverseBeta)
    ensures Solid(o.e) ==> JacobiKernel(p.(e := q), o, bC, alpha, inverseBeta) == JacobiKernel(p, o, bC, alpha, inverseBeta)
    ensures Solid(o.w) ==> JacobiKernel(p.(w := q), o, bC, alpha, inverseBeta) == JacobiKernel(p, o, bC, alpha, inverseBeta)
  {
  }

  /**
   A solid neighbour acts as a fluid neighbour holding the centre pressure:
   no pressure gradient across an obstacle face.
   */
  lemma SolidNeighbourActsAsCentre(p: Stencil<Vec4>, o: Stencil<Vec4>, bC: Vec4,
                                   alpha: real, inverseBeta: real)
    ensures !Solid(Zero4)
    ensures Solid(o.n) ==>
              JacobiKernel(p, o, bC, alpha, inverseBeta) == JacobiKernel(p.(n := p.c), o.(n := Zero4), bC, alpha, inverseBeta)
    ensures Solid(o.s) ==>
              JacobiKernel(p, o, bC, alpha, inverseBeta) == JacobiKernel(p.(s := p.c), o.(s := Zero4), bC, alpha, inverseBeta)
    ensures Solid(o.e) ==>
              JacobiKernel(p, o, bC, alpha, inverseBeta) == JacobiKernel(p.(e := p.c), o.(e := Zero4), bC, alpha, inverseBeta)
    ensures Solid(o.w) ==>
              JacobiKernel(p, o, bC, alpha, inverseBeta) == JacobiKernel(p.(w := p.c), o.(w := Zero4), bC, alpha, inverseBeta)
  {
  }

  /** With only fluid neighbours the sweep averages the four neighbours and the scaled divergence. */
  lemma JacobiOpenCell(p: Stencil<Vec4>, o: Stencil<Vec4>, bC: Vec4, alpha: real, inverseBeta: real)
    requires NoSolidNeighbour(o)
    ensures JacobiKernel(p, o, bC, alpha, inverseBeta)
            == Scale4(inverseBeta, Add4(Add4(Add4(Add4(p.w, p.e), p.s), p.n), Scale4(alpha, bC)))
  {
  }
}
