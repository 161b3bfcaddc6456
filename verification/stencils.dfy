/**
 What every per-cell kernel sees and writes. A kernel reads a texture at its
 own cell `st` and at the four axis neighbours `st + (0,1)`, `st + (0,-1)`,
 `st + (1,0)`, `st + (-1,0)`; it writes some or all of the four channels of
 `gl_FragColor`.
 */
module Stencils {
  import opened Vectors

  /** Samples of one texture at the centre and at its north, south, east and west neighbours. */
  datatype Stencil<T> = Stencil(c: T, n: T, s: T, e: T, w: T)

  function Uniform<T>(v: T): Stencil<T> { Stencil(v, v, v, v, v) }

  /** The obstacle mask marks a cell solid when its red channel exceeds this threshold. */
  const SolidThreshold: real := 0.1

  predicate Solid(o: Vec4) { o.r > SolidThreshold }

  predicate NoSolidNeighbour(o: Stencil<Vec4>) {
    !Solid(o.n) && !Solid(o.s) && !Solid(o.e) && !Solid(o.w)
  }

  /** Boundary velocity a solid obstacle texel imposes: its green and blue channels. */
  function BoundaryVelocity(o: Vec4): Vec2 { Vec2(o.g, o.b) }

  /** One channel of `gl_FragColor`: a shader that never assigns it leaves it undefined. */
  datatype Channel = Unwritten | Written(value: real)

  /** A fragment whose channels were written or left alone by the shader. */
  datatype Frag = Frag(r: Channel, g: Channel, b: Channel, a: Channel)

  /** A fragment that assigns exactly `.rg`, the velocity channels. */
  function RGOnly(v: Vec2): Frag {
    Frag(Written(v.x), Written(v.y), Unwritten, Unwritten)
  }
}
