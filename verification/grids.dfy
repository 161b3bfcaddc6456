/**
 A render pass: one kernel invocation per cell of a `width` x `height`
 target. A grid is a sequence of rows; `g[y][x]` is the texel of cell (x, y).
 `Render` is the order-free meaning of a pass and is what the rest of the
 model uses; `RenderPass` is the row-by-row loop the GPU could run instead,
 proved equal to it, so the order in which cells are drawn is unobservable.
 */
module Grids {
  import opened Vectors
  import opened Stencils

  type Grid<T> = seq<seq<T>>

  predicate Shaped<T>(g: Grid<T>, width: nat, height: nat) {
    |g| == height && forall y :: 0 <= y < height ==> |g[y]| == width
  }

  /** The target a pass leaves: every cell holds the kernel's value at that cell. */
  function Render<T>(width: nat, height: nat, kernel: (int, int) -> T): (g: Grid<T>)
    ensures Shaped(g, width, height)
  {
    seq(height, y => seq(width, x => kernel(x, y)))
  }

  /**
   A pass executed cell by cell, row by row; it produces the same target as
   `Render`, so the order in which cells are written is unobservable.
   */
  method RenderPass<T>(width: nat, height: nat, kernel: (int, int) -> T) returns (g: Grid<T>)
    ensures Shaped(g, width, height)
    ensures forall y, x :: 0 <= y < height && 0 <= x < width ==> g[y][x] == kernel(x, y)
    ensures g == Render(width, height, kernel)
  {
    g := [];
    var y := 0;
    while y < height
      invariant 0 <= y <= height
      invariant |g| == y
      invariant forall j :: 0 <= j < y ==> g[j] == seq(width, x => kernel(x, j))
    {
      var row: seq<T> := [];
      var x := 0;
      while x < width
        invariant 0 <= x <= width
        invariant |row| == x
        invariant forall i :: 0 <= i < x ==> row[i] == kernel(i, y)
      {
        row := row + [kernel(x, y)];
        x := x + 1;
      }
      g := g + [row];
      y := y + 1;
    }
  }

  /**
   How a kernel reads a texel at integer cell offsets. What happens outside
   the target (clamp, wrap, border) is the texture sampler's business and is
   left to this parameter.
   */
  type Fetch = (Grid<Vec4>, int, int) -> Vec4

  /** Every cell of the non-empty grid `g` holds `v`. */
  predicate UniformGrid(g: Grid<Vec4>, v: Vec4) {
    |g| > 0 && forall y :: 0 <= y < |g| ==> |g[y]| > 0 && forall x :: 0 <= x < |g[y]| ==> g[y][x] == v
  }

  /** A sampler that reads a uniform grid's value at every coordinate, inside or outside. */
  ghost predicate ReadsUniformly(fetch: Fetch) {
    forall g, v, x, y :: UniformGrid(g, v) ==> fetch(g, x, y) == v
  }

  function StencilAt(g: Grid<Vec4>, x: int, y: int, fetch: Fetch): Stencil<Vec4> {
    Stencil(fetch(g, x, y), fetch(g, x, y + 1), fetch(g, x, y - 1), fetch(g, x + 1, y), fetch(g, x - 1, y))
  }
}
