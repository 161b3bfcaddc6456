/**
 The pressure solve over whole grids: the jacobi kernel rendered over the
 pressure target, repeated a fixed number of times, each sweep reading the
 previous sweep's complete output. `Relax(n, …)` is the grid-level meaning of
 the `n` jacobi-then-swap pairs that `Fluid.RelaxLog` records: the swap after
 each pass is what makes the next pass read the grid this one wrote, which
 `Fluid.JacobiChain` states on the log side and the recursion on `Relax`'s
 previous output states here.
 */
module PressureSolve {
  import opened Vectors
  import opened Stencils
  import opened Grids
  import opened Relaxation

  /** One jacobi pass with the uniforms the solver binds for spacing `cellSize`. */
  function JacobiPass(pressure: Grid<Vec4>, divergence: Grid<Vec4>, obstacles: Grid<Vec4>,
                      width: nat, height: nat, fetch: Fetch, cellSize: real): (g: Grid<Vec4>)
    ensures Shaped(g, width, height)
  {
    Render(width, height, (x, y) =>
      JacobiKernel(StencilAt(pressure, x, y, fetch), StencilAt(obstacles, x, y, fetch),
                   fetch(divergence, x, y), JacobiAlpha(cellSize), JacobiInverseBeta))
  }

  /** `n` jacobi passes, each followed by a buffer swap so that the next pass reads its output. */
  function Relax(n: nat, pressure: Grid<Vec4>, divergence: Grid<Vec4>, obstacles: Grid<Vec4>,
                 width: nat, height: nat, fetch: Fetch, cellSize: real): Grid<Vec4>
    decreases n
  {
    if n == 0 then pressure
    else Relax(n - 1, JacobiPass(pressure, divergence, obstacles, width, height, fetch, cellSize),
               divergence, obstacles, width, height, fetch, cellSize)
  }

  /** A target cleared to `v`. */
  function ConstantGrid(width: nat, height: nat, v: Vec4): (g: Grid<Vec4>)
    ensures width > 0 && height > 0 ==> UniformGrid(g, v)
  {
    Render(width, height, (x, y) => v)
  }

  /**
   With zero divergence, one pass over a uniform pressure reproduces it
   exactly, whatever the obstacles.
   */
  lemma JacobiPassKeepsUniform(pressure: Grid<Vec4>, divergence: Grid<Vec4>, obstacles: Grid<Vec4>,
                               width: nat, height: nat, fetch: Fetch, cellSize: real, v: Vec4)
    requires ReadsUniformly(fetch)
    requires UniformGrid(pressure, v) && UniformGrid(divergence, Zero4)
    ensures JacobiPass(pressure, divergence, obstacles, width, height, fetch, cellSize)
            == ConstantGrid(width, height, v)
  {
    var g := JacobiPass(pressure, divergence, obstacles, width, height, fetch, cellSize);
    var c := ConstantGrid(width, height, v);
    forall y, x | 0 <= y < height && 0 <= x < width
      ensures g[y][x] == c[y][x]
    {
      assert StencilAt(pressure, x, y, fetch) == Uniform(v);
      assert fetch(divergence, x, y) == Zero4;
      JacobiUniformFixedPoint(v, StencilAt(obstacles, x, y, fetch), JacobiAlpha(cellSize));
    }
    forall y | 0 <= y < height
      ensures g[y] == c[y]
    {
    }
  }

  /**
   With zero divergence, any number of passes over a uniform pressure leave
   it unchanged.
   */
  lemma {:induction false} RelaxKeepsUniform(n: nat, divergence: Grid<Vec4>, obstacles: Grid<Vec4>,
                                             width: nat, height: nat, fetch: Fetch, cellSize: real, v: Vec4)
    requires ReadsUniformly(fetch)
    requires width > 0 && height > 0
    requires UniformGrid(divergence, Zero4)
    ensures Relax(n, ConstantGrid(width, height, v), divergence, obstacles, width, height, fetch, cellSize)
            == ConstantGrid(width, height, v)
    decreases n
  {
    if n > 0 {
      JacobiPassKeepsUniform(ConstantGrid(width, height, v), divergence, obstacles, width, height,
                             fetch, cellSize, v);
      RelaxKeepsUniform(n - 1, divergence, obstacles, width, height, fetch, cellSize, v);
    }
  }

  /**
   The step clears pressure to zero before relaxing; with zero divergence the
   relaxed pressure is still zero after any number of iterations.
   */
  lemma ClearedPressureStaysZero(n: nat, divergence: Grid<Vec4>, obstacles: Grid<Vec4>,
                                 width: nat, height: nat, fetch: Fetch, cellSize: real)
    requires ReadsUniformly(fetch)
    requires width > 0 && height > 0
    requires UniformGrid(divergence, Zero4)
    ensures UniformGrid(Relax(n, ConstantGrid(width, height, Zero4), divergence, obstacles,
                              width, height, fetch, cellSize), Zero4)
  {
    RelaxKeepsUniform(n, divergence, obstacles, width, height, fetch, cellSize, Zero4);
  }
}
