# ofxFluid in Dafny

This project models the core of `ofxFluid`, an openFrameworks add-on that runs a
2-D smoke solver (stable fluids) on the GPU. The solver keeps four
double-buffered fields: velocity, density, temperature and pressure. It also has
three single-buffered targets: divergence, obstacles and hi-res obstacles. Each
frame it runs six fragment-shader kernels over whole targets. The model has
three layers:

- **Ping-pong buffers** (`PingPong`). A field is two targets `FBOs[0..1]` plus an
  integer `flag`. `src` (read) and `dst` (write) are picked by `flag % 2`. The
  model proves the parity invariant that `initBuffer` sets up and `swapBuffer`
  keeps.
- **The six kernels** (`Advection`, `Relaxation`, `Divergence`, `Projection`,
  `Splat`, `Buoyancy`). Each is a pure function over `real`.
  - It reads the cell's own samples, its four neighbours' samples (a `Stencil`),
    the obstacle texels and the shader's uniforms.
  - The obstacle test is `r > 0.1` (`Stencils.Solid`).
  - A shader that assigns only some channels of `gl_FragColor` is modelled by a
    `Frag` whose other channels are `Unwritten`.
  - A pass over a whole target is the kernel mapped over a grid (`Grids`).
  - Repeated jacobi passes over whole pressure grids are in `PressureSolve`.
- **The solver object** (`Schedule`, `Forces`, `Fluid`). The state holds the
  configuration, the four buffers, and the temporal and constant force queues.
  - `allocate`, the two add-force calls, `update`, `obstaclesEnd` and
    `setTextureToBuffer` are transitions on that state.
  - Each transition also returns the log of passes it issues. A log entry names
    the kernel, the targets it samples, the target it draws into and the
    uniforms it binds, and the log records every buffer swap.

## Model

| member | source | states |
|---|---|---|
| PingPong.InitBuffer | Topografix/src/ofxEden/src/tools/ofxFluid.cpp:369-377 | A freshly set-up field reads `FBOs[0]` and writes `FBOs[1]`, satisfies the flag/src/dst invariant, and keeps its dissipation. |
| PingPong.SwapBuffer | Topografix/src/ofxEden/src/tools/ofxFluid.cpp:396-400 | On a field satisfying the invariant, a swap exchanges the read and write targets and keeps the invariant; the dissipation is untouched. |
| PingPong.ValidIsDisjoint | Topografix/src/ofxEden/src/tools/ofxFluid.cpp:396-400 | Under the invariant the read and write targets differ, and both index the two-element array. |
| PingPong.Swaps | Topografix/src/ofxEden/src/tools/ofxFluid.cpp:396-400 | After `n` swaps of a valid field the invariant holds; the targets are the original pair when `n` is even and exchanged when `n` is odd; the flag has grown by `n`. |
| PingPong.ParityAfterSwaps | Topografix/src/ofxEden/src/tools/ofxFluid.cpp:396-400 | After set-up and `n` swaps a field reads `FBOs[n mod 2]`, writes `FBOs[(n+1) mod 2]`, and the two never coincide. |
| PingPong.SwapTwiceRestores | Topografix/src/ofxEden/src/tools/ofxFluid.cpp:396-400 | Two swaps return a field to the targets it started with. |
| Advection.Advect | Topografix/src/ofxEden/src/tools/ofxFluid.cpp:59-73 | A solid cell yields zero. With dissipation 1 a fluid cell yields exactly the source sampled at the back-traced point `st - TimeStep*u`. At zero velocity it yields the dissipation times the sample at the cell itself. |
| Advection.AdvectScalesByDissipation | Topografix/src/ofxEden/src/tools/ofxFluid.cpp:64-72 | For every dissipation, velocity and obstacle texel, the result is the dissipation times the undamped advection. So a fluid cell yields `Dissipation * sample(st - TimeStep*u)`. |
| Advection.AdvectDissipates | Topografix/src/ofxEden/src/tools/ofxFluid.cpp:60-72 | With a dissipation in [0,1] and a non-negative back-traced sample, the output is non-negative and channel-wise no larger than that sample. |
| Relaxation.JacobiKernel | Topografix/src/ofxEden/src/tools/ofxFluid.cpp:88-108 | When all four neighbours are solid and the divergence is zero, the sweep with inverseBeta 0.25 returns the centre pressure. |
| Relaxation.JacobiUniformFixedPoint | Topografix/src/ofxEden/src/tools/ofxFluid.cpp:91-108 | A uniform pressure with zero divergence is a fixed point of the sweep, whatever the obstacles and alpha. |
| Relaxation.JacobiFixedPointSolvesPoisson | Topografix/src/ofxEden/src/tools/ofxFluid.cpp:102-108 | With alpha = -cellSize^2 and inverseBeta = 0.25, a cell is unchanged by a sweep if and only if its discrete Laplacian (solid faces contributing zero gradient) equals cellSize^2 times the divergence. |
| Relaxation.JacobiIgnoresSolidNeighbours | Topografix/src/ofxEden/src/tools/ofxFluid.cpp:102-105 | The pressure sample of a solid neighbour (in each of the four directions) has no influence on the output. |
| Relaxation.SolidNeighbourActsAsCentre | Topografix/src/ofxEden/src/tools/ofxFluid.cpp:102-105 | In each direction, a solid neighbour gives the same result as a fluid neighbour whose pressure sample is the centre pressure `pC` (zero gradient across the obstacle face). |
| Relaxation.JacobiOpenCell | Topografix/src/ofxEden/src/tools/ofxFluid.cpp:91-108 | With no solid neighbour, the output is `(pW + pE + pS + pN + alpha*bC) * inverseBeta` of the raw samples. |
| Divergence.DivergenceKernel | Topografix/src/ofxEden/src/tools/ofxFluid.cpp:168-187 | The divergence shader writes the red channel and only the red channel. |
| Divergence.UniformFlowIsDivergenceFree | Topografix/src/ofxEden/src/tools/ofxFluid.cpp:171-186 | A velocity equal at the four fluid neighbours gives zero divergence. |
| Divergence.OpenCellCentralDifference | Topografix/src/ofxEden/src/tools/ofxFluid.cpp:171-186 | With fluid neighbours and the bound uniform `0.5/cellSize`, the value is `(vE.x - vW.x + vN.y - vS.y) / (2*cellSize)`. |
| Divergence.DivergenceIgnoresSolidNeighbours | Topografix/src/ofxEden/src/tools/ofxFluid.cpp:181-184 | The velocity sample of a solid neighbour (in each of the four directions) has no influence on the output. |
| Divergence.SolidNeighbourActsAsBoundaryFlow | Topografix/src/ofxEden/src/tools/ofxFluid.cpp:181-184 | In each direction, a solid neighbour gives the same result as a fluid neighbour whose velocity sample carries the obstacle's `(g, b)` as `.rg`: the obstacle's boundary velocity stands in. |
| Divergence.DivergenceIgnoresCentre | Topografix/src/ofxEden/src/tools/ofxFluid.cpp:168-186 | Neither the centre velocity nor the centre obstacle texel affects the output. |
| Projection.SubtractGradientKernel | Topografix/src/ofxEden/src/tools/ofxFluid.cpp:123-156 | A solid cell writes `.g` and `.b` with the obstacle's `g` and `b` and leaves `.r` and `.a` unwritten; a fluid cell writes exactly `.rg`. |
| Projection.SubtractGradientPerAxis | Topografix/src/ofxEden/src/tools/ofxFluid.cpp:143-155 | At a fluid cell, x is the west obstacle's `g` if west is solid, else the east obstacle's `g` if east is solid, else `oldV.x - GradientScale*(pE - pW)`. y is the same with south over north, using `b` and `pN - pS`. |
| Projection.SolidNeighbourPinsAxis | Topografix/src/ofxEden/src/tools/ofxFluid.cpp:146-149 | On an axis with a solid neighbour the output component does not depend on the velocity or the pressure inputs. |
| Projection.OpenCellSubtractsGradient | Topografix/src/ofxEden/src/tools/ofxFluid.cpp:151-155 | With no solid neighbour the output is `oldV - GradientScale*(pE - pW, pN - pS)`. |
| Projection.UniformPressureKeepsVelocity | Topografix/src/ofxEden/src/tools/ofxFluid.cpp:132-155 | A uniform pressure leaves the velocity component unchanged on every axis whose two neighbours are fluid. |
| Projection.SolidCellChannelShift | Topografix/src/ofxEden/src/tools/ofxFluid.cpp:127-130 | For obstacle texel (1, 0.5, 0, 0) the kernel as written leaves velocity x unwritten and writes 0.5 into velocity y. The boundary velocity is (0.5, 0), which the corrected kernel writes. |
| Projection.SubtractGradientIntended | Topografix/src/ofxEden/src/tools/ofxFluid.cpp:127-130 | The corrected kernel writes exactly the velocity channels `.rg` at every cell, solid or fluid. At a fluid cell they hold the per-axis closed form: x from the west, else east, obstacle or from `oldV.x - GradientScale*(pE - pW)`; y likewise with south over north. |
| Projection.IntendedSolidCellIsBoundaryVelocity | Topografix/src/ofxEden/src/tools/ofxFluid.cpp:181-184 | At a solid cell the corrected kernel writes exactly `.rg` with the boundary velocity the divergence kernel substitutes for that obstacle. |
| Splat.ImpulseKernel | Topografix/src/ofxEden/src/tools/ofxFluid.cpp:199-208 | Inside the radius the colour is `Value` and alpha lies in (0,1]. Less than two units inside the rim, alpha is exactly `(Radius - d) * 0.5`. At or beyond the radius the output is all zero, so a non-positive radius never contributes. |
| Splat.FalloffMonotone | Topografix/src/ofxEden/src/tools/ofxFluid.cpp:200-206 | Alpha never increases with distance from the point. |
| Splat.FullStrengthCore | Topografix/src/ofxEden/src/tools/ofxFluid.cpp:201-204 | Cells at least two units inside the rim receive `(Value, 1)`. |
| Buoyancy.BuoyancyKernel | Topografix/src/ofxEden/src/tools/ofxFluid.cpp:227-239 | Exactly `.rg` is written. At or below the ambient temperature the velocity passes through unchanged. Above it the velocity gains `(TimeStep*(T - Ambient)*Sigma - D*Kappa)` times `Gravity`. |
| Buoyancy.BuoyancyLinearInTemperature | Topografix/src/ofxEden/src/tools/ofxFluid.cpp:235-237 | For two hot cells with the same velocity and density, the outputs differ by `TimeStep*Sigma*(T2 - T1)` times `Gravity`, component by component. |
| Buoyancy.HotCellsRiseTowardsNegativeY | Topografix/src/ofxEden/src/tools/ofxFluid.cpp:235-237 | Under gravity (0, -0.98), a hot cell keeps its x velocity. Its y velocity decreases if and only if `TimeStep*(T - Ambient)*Sigma > D*Kappa`. |
| Buoyancy.HotterRisesFaster | Topografix/src/ofxEden/src/tools/ofxFluid.cpp:235-237 | With non-negative time step and buoyancy and downward gravity, a hotter cell never ends with a larger y velocity than a cooler hot cell. |
| Grids.RenderPass | Topografix/src/ofxEden/src/tools/ofxFluid.cpp:349-359 | A full-target pass gives every cell of a width x height target the kernel's value at that cell, and the result equals the order-free definition `Render`. |
| PressureSolve.JacobiPassKeepsUniform | Topografix/src/ofxEden/src/tools/ofxFluid.cpp:418-432 | A whole-grid jacobi pass maps a uniform pressure with zero divergence to the same uniform grid. |
| PressureSolve.RelaxKeepsUniform | Topografix/src/ofxEden/src/tools/ofxFluid.cpp:328-331 | Any number of jacobi passes, each reading the previous output, keep a uniform pressure unchanged when the divergence is zero. |
| PressureSolve.ClearedPressureStaysZero | Topografix/src/ofxEden/src/tools/ofxFluid.cpp:324-331 | Starting from the zero-cleared pressure with zero divergence, the relaxed pressure is zero after any number of iterations. |
| Forces.ForceSplats | Topografix/src/ofxEden/src/tools/ofxFluid.cpp:305-309 | A force splats temperature `(t,t,t)` first. It splats density `colour*den` if and only if its colour is non-zero, and velocity `(vx,vy,0)` if and only if its velocity is non-zero. Nothing else is emitted, pressure is never touched, and the splat count is 1 to 3. |
| Forces.QueueSplatsShape | Topografix/src/ofxEden/src/tools/ofxFluid.cpp:303-321 | A queue's splats are exactly `SplatCount` impulse passes: none samples its target and none swaps a buffer. |
| Forces.QueueSplatsAreImpulses | Topografix/src/ofxEden/src/tools/ofxFluid.cpp:466-481 | Every event a queue produces is an impulse pass. |
| Fluid.DefaultConfig | Topografix/src/ofxEden/src/tools/ofxFluid.cpp:13-25 | The defaults have a positive cell size whose product with the gradient scale is 1, 40 > 0 jacobi iterations, a positive time step and gravity (0, -0.98). |
| Fluid.InitClears | Topografix/src/ofxEden/src/tools/ofxFluid.cpp:361-367 | Each new target is cleared to brightness 0 with alpha 255, in order. |
| Fluid.Construct | Topografix/src/ofxEden/src/tools/ofxFluid.cpp:13-25 | A new object holds the default tunables and two empty force queues, and its buffers are not yet set up (not steppable). |
| Fluid.Allocate | Topografix/src/ofxEden/src/tools/ofxFluid.cpp:27-47 | Set-up keeps the tunables and both force queues as they were. Every field reads target 0 and writes target 1, with dissipations 0.9 (velocity), 0.999 (density), 0.99 (temperature) and 0.9 (pressure). All eleven targets are cleared to (0, 255), and the last clear clears temperature's read target with brightness `ambientTemperature` (alpha 0). The state is steppable when the cell size is non-zero. |
| Fluid.ConstructThenAllocate | Topografix/src/ofxEden/src/tools/ofxFluid.cpp:13-47 | Constructing and then allocating gives empty queues, the default tunables and a steppable state. |
| Fluid.AllocatedDissipationsInUnitRange | Topografix/src/ofxEden/src/tools/ofxFluid.cpp:37-40 | After set-up, from any prior object, the four dissipations lie in [0,1]. |
| Fluid.AddTemporalForce | Topografix/src/ofxEden/src/tools/ofxFluid.cpp:261-273 | Exactly one force is appended to the temporal queue, with its position scaled into grid space; everything else, the constant queue included, is unchanged. |
| Fluid.AddConstantForce | Topografix/src/ofxEden/src/tools/ofxFluid.cpp:275-287 | The same for the constant queue. |
| Fluid.RelaxLog | Topografix/src/ofxEden/src/tools/ofxFluid.cpp:328-331 | The relaxation is `n` jacobi-then-swap pairs; pass i reads the pressure target that i swaps have made current. |
| Fluid.JacobiChain | Topografix/src/ofxEden/src/tools/ofxFluid.cpp:328-331 | Each jacobi pass samples exactly the target the previous pass drew into. |
| Fluid.RelaxLogKinds | Topografix/src/ofxEden/src/tools/ofxFluid.cpp:328-331 | The relaxation runs `n` jacobi kernels and nothing else. |
| Fluid.RelaxLogSwaps | Topografix/src/ofxEden/src/tools/ofxFluid.cpp:328-331 | The relaxation swaps pressure `n` times and no other field. |
| Fluid.RelaxLogNoFeedback | Topografix/src/ofxEden/src/tools/ofxFluid.cpp:418-432 | No jacobi pass samples the pressure target it draws into. |
| Fluid.Update | Topografix/src/ofxEden/src/tools/ofxFluid.cpp:289-338 | A step keeps the buffer invariant, empties the temporal queue and keeps the constant one. It keeps configuration, sizes, scale and dissipations. Velocity, temperature and density each end reading the target they were writing. Pressure's read target flips with the parity of the jacobi count. |
| Fluid.UpdateNoFeedback | Topografix/src/ofxEden/src/tools/ofxFluid.cpp:289-338 | No pass of a step samples the target it draws into. |
| Fluid.TransportShape | Topografix/src/ofxEden/src/tools/ofxFluid.cpp:291-301 | The first phase runs three advections and buoyancy and swaps velocity twice, temperature and density once each, and pressure never. |
| Fluid.ForceShape | Topografix/src/ofxEden/src/tools/ofxFluid.cpp:303-321 | The force phase is one impulse per splat of both queues and swaps nothing. |
| Fluid.UpdateSchedule | Topografix/src/ofxEden/src/tools/ofxFluid.cpp:289-338 | The kernels of a step, in order: advect x3, buoyancy, one impulse per splat, divergence, pressure clear, `max(0, numJacobiIterations)` jacobi, subtract-gradient. |
| Fluid.UpdateSwaps | Topografix/src/ofxEden/src/tools/ofxFluid.cpp:289-338 | A step logs 3 velocity swaps, 1 temperature swap, 1 density swap and one pressure swap per jacobi pass. Each field's flag grows by exactly its logged swap count. |
| Fluid.PressureReadsLatest | Topografix/src/ofxEden/src/tools/ofxFluid.cpp:323-334 | The first jacobi pass reads the freshly cleared pressure target. The gradient subtraction reads the target the last jacobi pass wrote, or the cleared one when no pass ran. That clear, `ofClear(0)`, sets brightness 0 and alpha 0 in pressure's read target. |
| Fluid.UpdateDataFlow | Topografix/src/ofxEden/src/tools/ofxFluid.cpp:289-301 | Velocity advection reads and writes the current velocity pair. Temperature and density advection sample their own field's current read target, and they and buoyancy sample the advected velocity (the target velocity advection wrote). Buoyancy samples the advected temperature and density and draws into the original velocity read target. Divergence, gradient subtraction and every velocity splat use that same target, and the gradient subtraction writes the other one. The divergence pass draws into the divergence target. |
| Fluid.UpdateSplatsEveryForce | Topografix/src/ofxEden/src/tools/ofxFluid.cpp:303-321 | Every force of either queue is splatted into the read target of the fields, as they stand after advection and buoyancy: temperature always, density if its colour is non-zero, velocity if its velocity is non-zero. |
| Fluid.UpdateUniforms | Topografix/src/ofxEden/src/tools/ofxFluid.cpp:402-492 | Every advection binds the time step and the written field's own dissipation. Every jacobi pass binds alpha = -cellSize^2 and inverseBeta 0.25. The divergence binds 0.5/cellSize and the projection the stored gradient scale. Buoyancy binds the ambient temperature, the time step, `smokeBuoyancy` as Sigma, `smokeWeight` as Kappa and `gForce` as Gravity. Every advection, divergence, jacobi and gradient pass samples the obstacle target, the one `obstaclesEnd` blits into, and every jacobi pass samples the divergence target. |
| Fluid.ObstaclesEnd | Topografix/src/ofxEden/src/tools/ofxFluid.cpp:252-259 | Ending an obstacle edit blits hi-res obstacles into the obstacle target, then runs exactly one step. No pass of the whole sequence samples its own target. |
| Fluid.SetTextureToBuffer | Topografix/src/ofxEden/src/tools/ofxFluid.cpp:379-394 | A texture is drawn into both targets of a field, then exactly one step runs. No pass of the whole sequence samples its own target. |

## Left out

- OpenGL and openFrameworks plumbing is not modelled: target allocation, shader compilation and linking, `cout`, `draw()` (lines 340-347) and `obstaclesBegin()` (lines 247-250), which only binds a target.
- Floating-point arithmetic, the 16- and 32-bit float pixel formats and the 8-bit `GL_RGB` obstacle targets are not modelled. All arithmetic is over `real`, so rounding and clamping of stored values are not modelled.
- Advection.Advect: the sampler at the back-traced point (bilinear filtering, edge clamp or wrap) is a function parameter, not a model of the GPU sampler.
- Grids.RenderPass: the neighbour fetch at the edge of a target is a parameter (`Grids.Fetch`); what lies outside a target is the sampler's choice.
- Splat.ImpulseKernel: `real` has no square root, so the distance `d` is an argument. The requires ties it to the points (`d >= 0`, `d*d` = squared distance).
- Blending is not modelled. The impulse pass is drawn with the graphics library's blend state on (lines 468-480 and 336-337), and that blend equation is not visible in this file. So the model logs the impulse fragment but not how it combines with the target.
- The content `obstaclesEnd` and `setTextureToBuffer` draw (resampling and texture placement) is not modelled. The model logs the draw and the step that follows.
- Fluid.Allocate: grid dimensions `width*scale` and `height*scale` are not modelled, because their type is declared in `ofxFluid.h`, which is not part of this model. The model keeps `width`, `height` and `scale`.
- Fluid.Construct: the constructor leaves the buffers' fields and `width`, `height` and `scale` uninitialised. The model gives each buffer one fixed placeholder value that reads and writes target 0, and gives `width`, `height` and `scale` the placeholder 0. So a force added before `allocate` has its position scaled by 0 in the model; in the code that scale is undefined.
- Fluid.Allocate: `allocate` accepts any sizes and scale and any configured cell size; the model does not validate them either.
- Fluid.InitClears: each target is cleared with brightness 0 and alpha 255 (line 365); what that alpha means for the float and `GL_RGB` formats is not modelled.
- Fluid.Update: requires a non-zero cell size, because the code divides by it (line 456). With floats a zero cell size would give an infinite uniform instead.
- Fluid.Update: requires the buffer invariant, which `allocate` establishes. A call before `allocate` uses buffers that were never set up.
- PingPong.SwapBuffer: `flag` is an unbounded natural. Wrap-around of the fixed-width integer is not modelled, because its declaration is in the header.
- Fluid.DefaultConfig: `gradientScale` is computed once in the constructor (line 16). Changing `cellSize` later leaves it stale. The model stores it as a separate field, as the code does, and proves nothing linking the two after construction.
- Convergence of the jacobi iteration and the divergence residual are left out: they are numerical analysis, not per-call contracts.

## Findings

| source | as written | input that shows it | evidently intended | confidence | as-written member | corrected member |
|---|---|---|---|---|---|---|
| Topografix/src/ofxEden/src/tools/ofxFluid.cpp:128 | The solid-cell branch of subtract-gradient writes `gl_FragColor.gb = oC.yz`. It leaves the velocity x channel (`r`) unwritten and puts the obstacle's x boundary velocity into velocity y. | obstacle texel (1, 0.5, 0, 0) at the cell: velocity x unwritten, velocity y = 0.5 | `gl_FragColor.rg = oC.yz`. The velocity channels get the boundary velocity `(oC.y, oC.z)`, the same convention the divergence kernel uses for solid neighbours (lines 181-184) and the fluid branch uses (lines 146-149). | medium; not executed | Projection.SolidCellChannelShift | Projection.IntendedSolidCellIsBoundaryVelocity |

`Projection.SubtractGradientIntended` is the corrected kernel. It matches the kernel as written (`Projection.SubtractGradientKernel`) at every fluid cell and differs only on solid cells. No other part of the model reads the kernel's values: the pass log names the gradient subtraction only by its targets and uniforms.
