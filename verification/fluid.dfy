/**
 The solver object: its tunables, its four double-buffered fields, its two
 force queues, and the operations the host calls. Each operation returns
 the next state together with the log of passes it issues.
 */
module Fluid {
  import opened Vectors
  import opened PingPong
  import opened Schedule
  import opened Forces
  import Relaxation
  import Divergence
  import Buoyancy

  /** The tunables. `gradientScale` is stored, not derived at use. */
  datatype Config = Config(cellSize: real, gradientScale: real, ambientTemperature: real,
                           numJacobiIterations: int, timeStep: real, smokeBuoyancy: real,
                           smokeWeight: real, gForce: Vec2)

  /** The constructor's defaults; `gradientScale` is the reciprocal of the cell size. */
  function DefaultConfig(): (c: Config)
    ensures c.cellSize > 0.0 && c.gradientScale * c.cellSize == 1.0
    ensures c.numJacobiIterations > 0 && c.timeStep > 0.0
    ensures c.gForce == Buoyancy.DefaultGravity
  {
    var cellSize := 1.25;
    Config(cellSize, 1.0 / cellSize, 0.0, 40, 0.125, 1.0, 0.05, Vec2(0.0, -0.98))
  }

  datatype Fluid = Fluid(config: Config, width: int, height: int, scale: real,
                         velocity: Buffer, density: Buffer, temperature: Buffer, pressure: Buffer,
                         temporal: seq<Force>, constant: seq<Force>)

  datatype Step = Step(next: Fluid, log: seq<Event>)

  /** A state a step can run on: every field's buffer consistent and a non-zero cell size. */
  predicate Valid(s: Fluid) {
    && s.config.cellSize != 0.0
    && PingPong.Valid(s.velocity) && PingPong.Valid(s.density)
    && PingPong.Valid(s.temperature) && PingPong.Valid(s.pressure)
  }

  /** Dissipations the four fields are allocated with. */
  const VelocityDissipation: real := 0.9
  const DensityDissipation: real := 0.999
  const TemperatureDissipation: real := 0.99
  const PressureDissipation: real := 0.9

  /** Every target of the pool, in the order allocation clears them. */
  const PoolTargets: seq<Target> := [
    Slot(Velocity, 0), Slot(Velocity, 1), Slot(Density, 0), Slot(Density, 1),
    Slot(Temperature, 0), Slot(Temperature, 1), Slot(Pressure, 0), Slot(Pressure, 1),
    DivergenceFbo, ObstaclesFbo, HiresObstaclesFbo]

  /** `initFbo` clears a new target to black with full alpha. */
  function InitClears(ts: seq<Target>): (log: seq<Event>)
    ensures |log| == |ts|
    ensures forall i :: 0 <= i < |ts| ==> log[i] == Render(Clear(ts[i], 0.0, 255.0))
  {
    if ts == [] then [] else [Render(Clear(ts[0], 0.0, 255.0))] + InitClears(ts[1..])
  }

  /** Every target of the list is cleared. */
  lemma {:induction false} InitClearsCover(ts: seq<Target>)
    ensures forall t | t in ts :: Render(Clear(t, 0.0, 255.0)) in InitClears(ts)
    decreases |ts|
  {
    if ts != [] {
      InitClearsCover(ts[1..]);
      assert forall t | t in ts :: t == ts[0] || t in ts[1..];
    }
  }

  /**
   The object as the constructor leaves it: the default tunables, empty
   force queues, and buffers not yet set up (flag 0 reads and writes target 0).
   The constructor leaves the sizes, the scale and the buffers unset; 0 and
   that unset buffer stand in for them.
   */
  function Construct(): (s: Fluid)
    ensures s.config == DefaultConfig() && s.temporal == [] && s.constant == []
    ensures !PingPong.Valid(s.velocity)
  {
    var unset := Buffer(0, 0, 0, 0.0);
    Fluid(DefaultConfig(), 0, 0, 0.0, unset, unset, unset, unset, [], [])
  }

  /**
   `allocate` on object `s`: the four fields set up with their own
   dissipations, every target cleared, then the temperature field's current
   target cleared with brightness `ambientTemperature`. The tunables and both
   force queues are left as they were. Arguments are not validated.
   */
  function Allocate(s: Fluid, width: int, height: int, scale: real): (r: Step)
    ensures r.next.config == s.config && r.next.temporal == s.temporal && r.next.constant == s.constant
    ensures r.next.width == width && r.next.height == height && r.next.scale == scale
    ensures s.config.cellSize != 0.0 ==> Valid(r.next)
    ensures r.next.velocity.src == r.next.density.src == r.next.temperature.src == r.next.pressure.src == 0
    ensures r.next.velocity.dst == r.next.density.dst == r.next.temperature.dst == r.next.pressure.dst == 1
    ensures r.next.velocity.diss == 0.9 && r.next.density.diss == 0.999
    ensures r.next.temperature.diss == 0.99 && r.next.pressure.diss == 0.9
    ensures forall t | t in PoolTargets :: Render(Clear(t, 0.0, 255.0)) in r.log
    ensures |r.log| == |PoolTargets| + 1
    ensures r.log[|r.log| - 1]
            == Render(Clear(Slot(Temperature, r.next.temperature.src), s.config.ambientTemperature, 0.0))
  {
    var next := s.(width := width, height := height, scale := scale,
                   velocity := InitBuffer(VelocityDissipation), density := InitBuffer(DensityDissipation),
                   temperature := InitBuffer(TemperatureDissipation), pressure := InitBuffer(PressureDissipation));
    var clears := InitClears(PoolTargets);
    InitClearsCover(PoolTargets);
    Step(next, clears + [Render(Clear(Slot(Temperature, next.temperature.src), s.config.ambientTemperature, 0.0))])
  }

  /** A freshly constructed and allocated solver has empty queues, the default tunables, and can step. */
  lemma ConstructThenAllocate(width: int, height: int, scale: real)
    ensures var s := Allocate(Construct(), width, height, scale).next;
            s.temporal == [] && s.constant == [] && s.config == DefaultConfig() && Valid(s)
  {
  }

  /**
   Every allocated field's dissipation lies in [0,1], so advecting any of
   them with a non-negative sample gives a non-negative value no larger than
   the sample.
   */
  lemma AllocatedDissipationsInUnitRange(s: Fluid, width: int, height: int, scale: real)
    ensures var n := Allocate(s, width, height, scale).next;
            && 0.0 <= n.velocity.diss <= 1.0 && 0.0 <= n.density.diss <= 1.0
            && 0.0 <= n.temperature.diss <= 1.0 && 0.0 <= n.pressure.diss <= 1.0
  {
  }

  /** The force queues' add calls: one new force, position scaled to grid space, at the end of one queue. */
  function AddTemporalForce(s: Fluid, pos: Vec2, vel: Vec2, col: Vec4, rad: real, temp: real, den: real): (r: Fluid)
    ensures |r.temporal| == |s.temporal| + 1 && r.temporal[..|s.temporal|] == s.temporal
    ensures r.temporal[|s.temporal|] == MakeForce(pos, vel, col, rad, temp, den, s.scale)
    ensures r.temporal[|s.temporal|].pos == Scale2(s.scale, pos)
    ensures r.(temporal := s.temporal) == s
  {
    s.(temporal := s.temporal + [MakeForce(pos, vel, col, rad, temp, den, s.scale)])
  }

  function AddConstantForce(s: Fluid, pos: Vec2, vel: Vec2, col: Vec4, rad: real, temp: real, den: real): (r: Fluid)
    ensures |r.constant| == |s.constant| + 1 && r.constant[..|s.constant|] == s.constant
    ensures r.constant[|s.constant|] == MakeForce(pos, vel, col, rad, temp, den, s.scale)
    ensures r.constant[|s.constant|].pos == Scale2(s.scale, pos)
    ensures r.(constant := s.constant) == s
  {
    s.(constant := s.constant + [MakeForce(pos, vel, col, rad, temp, den, s.scale)])
  }

  /** The `for (i = 0; i < numJacobiIterations; i++)` loop runs this many times. */
  function Iterations(c: Config): nat {
    if c.numJacobiIterations < 0 then 0 else c.numJacobiIterations
  }

  /** Advect field `f` (buffer `b`) along velocity's current target (buffer `v`). */
  function AdvectPass(f: FieldId, b: Buffer, v: Buffer, c: Config): Pass {
    Advect(Slot(Velocity, v.src), Slot(f, b.src), ObstaclesFbo, Slot(f, b.dst), c.timeStep, b.diss)
  }

  function BuoyancyPass(v: Buffer, t: Buffer, d: Buffer, c: Config): Pass {
    ApplyBuoyancy(Slot(Velocity, v.src), Slot(Temperature, t.src), Slot(Density, d.src), Slot(Velocity, v.dst),
                  c.ambientTemperature, c.timeStep, c.smokeBuoyancy, c.smokeWeight, c.gForce)
  }

  function JacobiStep(b: Buffer, c: Config): Pass {
    Jacobi(Slot(Pressure, b.src), DivergenceFbo, ObstaclesFbo, Slot(Pressure, b.dst),
           Relaxation.JacobiAlpha(c.cellSize), Relaxation.JacobiInverseBeta)
  }

  /**
   `n` jacobi passes each followed by a pressure swap. The i-th pass reads
   the target that i swaps have made current and writes the other.
   */
  function RelaxLog(b: Buffer, n: nat, c: Config): (log: seq<Event>)
    ensures |log| == 2 * n
    ensures forall i :: 0 <= i < n ==>
              log[2 * i] == Render(JacobiStep(Swaps(b, i), c)) && log[2 * i + 1] == Swap(Pressure)
    decreases n
  {
    if n == 0 then []
    else RelaxLog(b, n - 1, c) + [Render(JacobiStep(Swaps(b, n - 1), c)), Swap(Pressure)]
  }

  /**
   Each relaxation pass samples exactly the target the previous pass wrote,
   so every sweep reads a completely written pressure field.
   */
  lemma JacobiChain(b: Buffer, n: nat, c: Config, i: nat)
    requires PingPong.Valid(b)
    requires i + 1 < n
    ensures RelaxLog(b, n, c)[2 * (i + 1)].pass.pressure == RelaxLog(b, n, c)[2 * i].pass.dest
  {
    assert Swaps(b, i + 1) == SwapBuffer(Swaps(b, i));
  }

  /** The relaxation runs `n` jacobi kernels and nothing else. */
  lemma {:induction false} RelaxLogKinds(b: Buffer, n: nat, c: Config)
    ensures Kinds(RelaxLog(b, n, c)) == Repeat(JacobiKind, n)
    decreases n
  {
    if n > 0 {
      var pass := [Render(JacobiStep(Swaps(b, n - 1), c)), Swap(Pressure)];
      RelaxLogKinds(b, n - 1, c);
      KindsAppend(RelaxLog(b, n - 1, c), pass);
      PassAndSwapShape(JacobiStep(Swaps(b, n - 1), c), Pressure);
      RepeatAppend(JacobiKind, n - 1, 1);
    }
  }

  /** The relaxation swaps pressure `n` times and no other field. */
  lemma {:induction false} RelaxLogSwaps(b: Buffer, n: nat, c: Config)
    ensures forall f: FieldId :: SwapCount(RelaxLog(b, n, c), f) == if f == Pressure then n else 0
    decreases n
  {
    if n > 0 {
      var pass := [Render(JacobiStep(Swaps(b, n - 1), c)), Swap(Pressure)];
      RelaxLogSwaps(b, n - 1, c);
      KindsAppend(RelaxLog(b, n - 1, c), pass);
      PassAndSwapShape(JacobiStep(Swaps(b, n - 1), c), Pressure);
    }
  }

  /** No relaxation pass samples the pressure target it writes. */
  lemma RelaxLogNoFeedback(b: Buffer, n: nat, c: Config)
    requires PingPong.Valid(b)
    ensures NoFeedbackLog(RelaxLog(b, n, c))
  {
    var log := RelaxLog(b, n, c);
    forall e | e in log && e.Render? ensures NoFeedback(e.pass) {
      var k :| 0 <= k < |log| && log[k] == e;
      var i := k / 2;
      assert k == 2 * i || k == 2 * i + 1;
      ValidIsDisjoint(Swaps(b, i));
    }
  }

  /** The splats of a queue, or nothing when the queue is empty. */
  function QueuePhase(q: seq<Force>, t: Buffer, d: Buffer, v: Buffer): seq<Event> {
    if |q| != 0 then QueueSplats(q, t.src, d.src, v.src) else []
  }

  /** Velocity after its advection swap, and after the buoyancy swap. */
  function AdvectedVelocity(s: Fluid): Buffer { SwapBuffer(s.velocity) }
  function BuoyantVelocity(s: Fluid): Buffer { SwapBuffer(SwapBuffer(s.velocity)) }

  /** Steps 1-4 of `Update`: three advections and buoyancy, each followed by a swap. */
  function TransportPhase(s: Fluid): seq<Event> {
    var c := s.config;
    var v1 := AdvectedVelocity(s);
    var t1 := SwapBuffer(s.temperature);
    var d1 := SwapBuffer(s.density);
    [Render(AdvectPass(Velocity, s.velocity, s.velocity, c)), Swap(Velocity),
     Render(AdvectPass(Temperature, s.temperature, v1, c)), Swap(Temperature),
     Render(AdvectPass(Density, s.density, v1, c)), Swap(Density),
     Render(BuoyancyPass(v1, t1, d1, c)), Swap(Velocity)]
  }

  /** Steps 5-6 of `Update`: the temporal forces' splats, then the constant forces'. */
  function ForcePhase(s: Fluid): seq<Event> {
    var t1 := SwapBuffer(s.temperature);
    var d1 := SwapBuffer(s.density);
    var v2 := BuoyantVelocity(s);
    QueuePhase(s.temporal, t1, d1, v2) + QueuePhase(s.constant, t1, d1, v2)
  }

  /** Steps 7-8 of `Update`: divergence of the current velocity, then pressure cleared to zero. */
  function DivergencePhase(s: Fluid): seq<Event>
    requires s.config.cellSize != 0.0
  {
    [Render(ComputeDivergence(Slot(Velocity, BuoyantVelocity(s).src), ObstaclesFbo, DivergenceFbo,
                              Divergence.HalfInverseCellSize(s.config.cellSize))),
     Render(Clear(Slot(Pressure, s.pressure.src), 0.0, 0.0))]
  }

  /** Step 10 of `Update`: subtract the gradient of the relaxed pressure, then swap velocity. */
  function ProjectionPhase(s: Fluid): seq<Event> {
    var v2 := BuoyantVelocity(s);
    var p1 := Swaps(s.pressure, Iterations(s.config));
    [Render(SubtractGradient(Slot(Velocity, v2.src), Slot(Pressure, p1.src), ObstaclesFbo,
                             Slot(Velocity, v2.dst), s.config.gradientScale)),
     Swap(Velocity)]
  }

  /**
   One simulation step, `update()`, in ten steps:
   (1) advect velocity and swap; (2) advect temperature and swap;
   (3) advect density and swap; (4) apply buoyancy and swap velocity;
   (5) splat every temporal force, then empty that queue; (6) splat every
   constant force; (7) compute divergence; (8) clear pressure; (9) run the
   relaxation (`RelaxLog`); (10) subtract the gradient and swap velocity.
   */
  function Update(s: Fluid): (r: Step)
    requires Valid(s)
    ensures Valid(r.next)
    ensures r.next.temporal == [] && r.next.constant == s.constant
    ensures r.next.config == s.config && r.next.width == s.width && r.next.height == s.height
    ensures r.next.scale == s.scale
    ensures r.next.velocity.src == s.velocity.dst && r.next.temperature.src == s.temperature.dst
    ensures r.next.density.src == s.density.dst
    ensures Iterations(s.config) % 2 == 0 ==> r.next.pressure.src == s.pressure.src
    ensures Iterations(s.config) % 2 == 1 ==> r.next.pressure.src == s.pressure.dst
    ensures r.next.velocity.diss == s.velocity.diss && r.next.density.diss == s.density.diss
    ensures r.next.temperature.diss == s.temperature.diss && r.next.pressure.diss == s.pressure.diss
  {
    var next := s.(velocity := SwapBuffer(BuoyantVelocity(s)),
                   temperature := SwapBuffer(s.temperature),
                   density := SwapBuffer(s.density),
                   pressure := Swaps(s.pressure, Iterations(s.config)),
                   temporal := if |s.temporal| != 0 then [] else s.temporal);
    Step(next, TransportPhase(s) + ForcePhase(s) + DivergencePhase(s)
               + RelaxLog(s.pressure, Iterations(s.config), s.config) + ProjectionPhase(s))
  }

  /** No pass of a step samples the target it draws into. */
  lemma UpdateNoFeedback(s: Fluid)
    requires Valid(s)
    ensures NoFeedbackLog(Update(s).log)
  {
    TransportNoFeedback(s);
    ForceNoFeedback(s);
    RelaxLogNoFeedback(s.pressure, Iterations(s.config), s.config);
    ProjectionNoFeedback(s);
    assert NoFeedbackLog(DivergencePhase(s));
    var relax := RelaxLog(s.pressure, Iterations(s.config), s.config);
    NoFeedbackLogAppend(TransportPhase(s), ForcePhase(s));
    NoFeedbackLogAppend(TransportPhase(s) + ForcePhase(s), DivergencePhase(s));
    NoFeedbackLogAppend(TransportPhase(s) + ForcePhase(s) + DivergencePhase(s), relax);
    NoFeedbackLogAppend(TransportPhase(s) + ForcePhase(s) + DivergencePhase(s) + relax, ProjectionPhase(s));
  }

  lemma TransportNoFeedback(s: Fluid)
    requires Valid(s)
    ensures NoFeedbackLog(TransportPhase(s))
  {
    ValidIsDisjoint(s.velocity);
    ValidIsDisjoint(s.temperature);
    ValidIsDisjoint(s.density);
    ValidIsDisjoint(AdvectedVelocity(s));
  }

  lemma ForceNoFeedback(s: Fluid)
    ensures NoFeedbackLog(ForcePhase(s))
  {
    var t1 := SwapBuffer(s.temperature);
    var d1 := SwapBuffer(s.density);
    var v2 := BuoyantVelocity(s);
    QueueSplatsShape(s.temporal, t1.src, d1.src, v2.src);
    QueueSplatsShape(s.constant, t1.src, d1.src, v2.src);
  }

  lemma ProjectionNoFeedback(s: Fluid)
    requires Valid(s)
    ensures NoFeedbackLog(ProjectionPhase(s))
  {
    ValidIsDisjoint(BuoyantVelocity(s));
  }

  /** A pass-swap pair of the transport phase. */
  function PassSwap(p: Pass, f: FieldId): seq<Event> { [Render(p), Swap(f)] }

  lemma TransportShape(s: Fluid)
    ensures Kinds(TransportPhase(s)) == [AdvectKind, AdvectKind, AdvectKind, BuoyancyKind]
    ensures SwapCount(TransportPhase(s), Velocity) == 2
    ensures SwapCount(TransportPhase(s), Temperature) == 1
    ensures SwapCount(TransportPhase(s), Density) == 1
    ensures SwapCount(TransportPhase(s), Pressure) == 0
  {
    var c := s.config;
    var v1 := AdvectedVelocity(s);
    var t1 := SwapBuffer(s.temperature);
    var d1 := SwapBuffer(s.density);
    var a := PassSwap(AdvectPass(Velocity, s.velocity, s.velocity, c), Velocity);
    var b := PassSwap(AdvectPass(Temperature, s.temperature, v1, c), Temperature);
    var d := PassSwap(AdvectPass(Density, s.density, v1, c), Density);
    var e := PassSwap(BuoyancyPass(v1, t1, d1, c), Velocity);
    assert TransportPhase(s) == a + b + d + e;
    PassAndSwapShape(AdvectPass(Velocity, s.velocity, s.velocity, c), Velocity);
    PassAndSwapShape(AdvectPass(Temperature, s.temperature, v1, c), Temperature);
    PassAndSwapShape(AdvectPass(Density, s.density, v1, c), Density);
    PassAndSwapShape(BuoyancyPass(v1, t1, d1, c), Velocity);
    KindsAppend(a, b);
    KindsAppend(a + b, d);
    KindsAppend(a + b + d, e);
  }

  lemma ForceShape(s: Fluid)
    ensures Kinds(ForcePhase(s)) == Repeat(ImpulseKind, SplatCount(s.temporal) + SplatCount(s.constant))
    ensures forall f: FieldId :: SwapCount(ForcePhase(s), f) == 0
  {
    var t1 := SwapBuffer(s.temperature);
    var d1 := SwapBuffer(s.density);
    var v2 := BuoyantVelocity(s);
    QueueSplatsShape(s.temporal, t1.src, d1.src, v2.src);
    QueueSplatsShape(s.constant, t1.src, d1.src, v2.src);
    var a := QueuePhase(s.temporal, t1, d1, v2);
    var b := QueuePhase(s.constant, t1, d1, v2);
    assert Kinds(a) == Repeat(ImpulseKind, SplatCount(s.temporal));
    assert Kinds(b) == Repeat(ImpulseKind, SplatCount(s.constant));
    KindsAppend(a, b);
    RepeatAppend(ImpulseKind, SplatCount(s.temporal), SplatCount(s.constant));
  }

  lemma TwoPassShape(p: Pass, q: Pass)
    ensures Kinds([Render(p), Render(q)]) == [KindOf(p), KindOf(q)]
    ensures forall f: FieldId :: SwapCount([Render(p), Render(q)], f) == 0
  {
    var log := [Render(p), Render(q)];
    assert log[1..] == [Render(q)];
    assert [Render(q)][1..] == [];
    assert Kinds([Render(q)]) == [KindOf(q)] + Kinds([]);
    forall f: FieldId ensures SwapCount(log, f) == 0 {
      assert SwapCount([Render(q)], f) == 0 + SwapCount([], f);
    }
  }

  /**
   The passes of a step, in order: three advections, buoyancy, one impulse
   per splat of both queues, divergence, the pressure clear, exactly
   `numJacobiIterations` (or none, if negative) jacobi passes, and the
   gradient subtraction.
   */
  lemma UpdateSchedule(s: Fluid)
    requires Valid(s)
    ensures Kinds(Update(s).log)
            == [AdvectKind, AdvectKind, AdvectKind, BuoyancyKind]
               + Repeat(ImpulseKind, SplatCount(s.temporal) + SplatCount(s.constant))
               + [DivergenceKind, ClearKind]
               + Repeat(JacobiKind, Iterations(s.config))
               + [SubtractGradientKind]
  {
    var n := Iterations(s.config);
    var t := TransportPhase(s);
    var f := ForcePhase(s);
    var d := DivergencePhase(s);
    var x := RelaxLog(s.pressure, n, s.config);
    var p := ProjectionPhase(s);
    TransportShape(s);
    ForceShape(s);
    TwoPassShape(d[0].pass, d[1].pass);
    assert d == [Render(d[0].pass), Render(d[1].pass)];
    RelaxLogKinds(s.pressure, n, s.config);
    PassAndSwapShape(p[0].pass, Velocity);
    assert p == [Render(p[0].pass), Swap(Velocity)];
    KindsAppend(t, f);
    KindsAppend(t + f, d);
    KindsAppend(t + f + d, x);
    KindsAppend(t + f + d + x, p);
  }

  /**
   The swaps a step logs are the swaps its state shows: velocity three
   times, temperature and density once, pressure once per jacobi pass.
   */
  lemma UpdateSwaps(s: Fluid)
    requires Valid(s)
    ensures SwapCount(Update(s).log, Velocity) == 3
    ensures SwapCount(Update(s).log, Temperature) == 1
    ensures SwapCount(Update(s).log, Density) == 1
    ensures SwapCount(Update(s).log, Pressure) == Iterations(s.config)
    ensures Update(s).next.velocity.flag == s.velocity.flag + SwapCount(Update(s).log, Velocity)
    ensures Update(s).next.temperature.flag == s.temperature.flag + SwapCount(Update(s).log, Temperature)
    ensures Update(s).next.density.flag == s.density.flag + SwapCount(Update(s).log, Density)
    ensures Update(s).next.pressure.flag == s.pressure.flag + SwapCount(Update(s).log, Pressure)
  {
    var n := Iterations(s.config);
    var t := TransportPhase(s);
    var f := ForcePhase(s);
    var d := DivergencePhase(s);
    var x := RelaxLog(s.pressure, n, s.config);
    var p := ProjectionPhase(s);
    TransportShape(s);
    ForceShape(s);
    TwoPassShape(d[0].pass, d[1].pass);
    assert d == [Render(d[0].pass), Render(d[1].pass)];
    RelaxLogSwaps(s.pressure, n, s.config);
    PassAndSwapShape(p[0].pass, Velocity);
    assert p == [Render(p[0].pass), Swap(Velocity)];
    KindsAppend(t, f);
    KindsAppend(t + f, d);
    KindsAppend(t + f + d, x);
    KindsAppend(t + f + d + x, p);
  }

  /**
   The relaxation starts from the freshly cleared pressure target, and the
   gradient subtraction samples the target the last jacobi pass wrote (the
   cleared one when no pass ran).
   */
  lemma PressureReadsLatest(s: Fluid)
    requires Valid(s)
    ensures Iterations(s.config) > 0 ==>
              RelaxLog(s.pressure, Iterations(s.config), s.config)[0] == Render(JacobiStep(s.pressure, s.config))
              && JacobiStep(s.pressure, s.config).pressure == DivergencePhase(s)[1].pass.dest
    ensures Iterations(s.config) > 0 ==>
              var last := Swaps(s.pressure, Iterations(s.config) - 1);
              && RelaxLog(s.pressure, Iterations(s.config), s.config)[2 * (Iterations(s.config) - 1)]
                 == Render(JacobiStep(last, s.config))
              && ProjectionPhase(s)[0].pass.pressure == JacobiStep(last, s.config).dest
    ensures Iterations(s.config) == 0 ==> ProjectionPhase(s)[0].pass.pressure == DivergencePhase(s)[1].pass.dest
    ensures DivergencePhase(s)[1] == Render(Clear(Slot(Pressure, s.pressure.src), 0.0, 0.0))
  {
    var n := Iterations(s.config);
    if n > 0 {
      RelaxLogAt(s.pressure, n, s.config, 0);
      RelaxLogAt(s.pressure, n, s.config, n - 1);
      assert Swaps(s.pressure, n) == SwapBuffer(Swaps(s.pressure, n - 1));
    }
  }

  /** The `i`-th pass-swap pair of the relaxation. */
  lemma RelaxLogAt(b: Buffer, n: nat, c: Config, i: nat)
    requires i < n
    ensures RelaxLog(b, n, c)[2 * i] == Render(JacobiStep(Swaps(b, i), c))
    ensures RelaxLog(b, n, c)[2 * i + 1] == Swap(Pressure)
  {
  }

  /**
   Which velocity, temperature and density targets the passes of a step
   read. Velocity advection reads and writes the current pair. Temperature
   and density advection read their own field's current target along the
   advected velocity (the target velocity advection wrote), as does buoyancy;
   buoyancy reads the advected temperature and
   density and writes back into the original read target. The divergence and
   the gradient subtraction read that same target, which is also where every
   velocity splat is drawn, and the gradient subtraction writes the other one.
   The divergence pass draws into the divergence target every jacobi pass
   samples (`Binds`).
   */
  lemma UpdateDataFlow(s: Fluid)
    requires Valid(s)
    ensures var t := TransportPhase(s);
            && t[0].pass.source == Slot(Velocity, s.velocity.src) && t[0].pass.velocity == Slot(Velocity, s.velocity.src)
            && t[0].pass.dest == Slot(Velocity, s.velocity.dst)
            && t[2].pass.velocity == t[0].pass.dest && t[4].pass.velocity == t[0].pass.dest
            && t[2].pass.source == Slot(Temperature, s.temperature.src)
            && t[4].pass.source == Slot(Density, s.density.src)
            && t[2].pass.dest == Slot(Temperature, s.temperature.dst)
            && t[4].pass.dest == Slot(Density, s.density.dst)
            && t[6].pass.velocity == t[0].pass.dest
            && t[6].pass.temperature == t[2].pass.dest && t[6].pass.density == t[4].pass.dest
            && t[6].pass.dest == Slot(Velocity, s.velocity.src)
    ensures DivergencePhase(s)[0].pass.velocity == Slot(Velocity, s.velocity.src)
    ensures DivergencePhase(s)[0].pass.dest == DivergenceFbo
    ensures ProjectionPhase(s)[0].pass.velocity == Slot(Velocity, s.velocity.src)
    ensures ProjectionPhase(s)[0].pass.dest == Slot(Velocity, s.velocity.dst)
    ensures forall f | f in s.temporal || f in s.constant ::
              f.vel != Zero2 ==> VelocitySplat(f, s.velocity.src) in Update(s).log
  {
    forall f | f in s.temporal || f in s.constant
      ensures f.vel != Zero2 ==> VelocitySplat(f, s.velocity.src) in Update(s).log
    {
      UpdateSplatsEveryForce(s, f);
    }
  }

  lemma {:induction false} QueueContainsForceSplats(q: seq<Force>, f: Force, tSrc: nat, dSrc: nat, vSrc: nat)
    requires f in q
    ensures forall e | e in ForceSplats(f, tSrc, dSrc, vSrc) :: e in QueueSplats(q, tSrc, dSrc, vSrc)
    decreases |q|
  {
    if q[0] != f {
      assert f in q[1..];
      QueueContainsForceSplats(q[1..], f, tSrc, dSrc, vSrc);
    }
  }

  /**
   Every force of either queue is splatted in the step: temperature always,
   density when its colour is non-zero, velocity when its velocity is
   non-zero, each into the target that field's next pass reads.
   */
  lemma UpdateSplatsEveryForce(s: Fluid, f: Force)
    requires Valid(s)
    requires f in s.temporal || f in s.constant
    ensures TemperatureSplat(f, s.temperature.dst) in Update(s).log
    ensures f.color != Zero3 ==> DensitySplat(f, s.density.dst) in Update(s).log
    ensures f.vel != Zero2 ==> VelocitySplat(f, s.velocity.src) in Update(s).log
  {
    var t1 := SwapBuffer(s.temperature);
    var d1 := SwapBuffer(s.density);
    var v2 := BuoyantVelocity(s);
    var log := Update(s).log;
    assert forall e | e in ForcePhase(s) :: e in log;
    if f in s.temporal {
      QueueContainsForceSplats(s.temporal, f, t1.src, d1.src, v2.src);
    } else {
      QueueContainsForceSplats(s.constant, f, t1.src, d1.src, v2.src);
    }
  }

  /** A step preceded by passes free of feedback is free of feedback as a whole. */
  lemma PrefixedUpdateNoFeedback(s: Fluid, pre: seq<Event>)
    requires Valid(s) && NoFeedbackLog(pre)
    ensures NoFeedbackLog(pre + Update(s).log)
  {
    UpdateNoFeedback(s);
    NoFeedbackLogAppend(pre, Update(s).log);
  }

  /**
   Ending an obstacle edit: the hi-res obstacle target is drawn into the
   grid-resolution obstacle target, then exactly one step runs.
   */
  function ObstaclesEnd(s: Fluid): (r: Step)
    requires Valid(s)
    ensures r.next == Update(s).next
    ensures r.log == [Render(Blit(HiresObstaclesFbo, ObstaclesFbo))] + Update(s).log
    ensures NoFeedbackLog(r.log)
  {
    var pre := [Render(Blit(HiresObstaclesFbo, ObstaclesFbo))];
    assert pre[0].pass.dest !in Sampled(pre[0].pass);
    assert NoFeedbackLog(pre);
    PrefixedUpdateNoFeedback(s, pre);
    Step(Update(s).next, pre + Update(s).log)
  }

  /** A host texture drawn into both targets of field `f`, then exactly one step. */
  function SetTextureToBuffer(s: Fluid, f: FieldId): (r: Step)
    requires Valid(s)
    ensures r.next == Update(s).next
    ensures r.log == [Render(DrawTexture(Slot(f, 0))), Render(DrawTexture(Slot(f, 1)))] + Update(s).log
    ensures NoFeedbackLog(r.log)
  {
    var pre := [Render(DrawTexture(Slot(f, 0))), Render(DrawTexture(Slot(f, 1)))];
    assert Sampled(pre[0].pass) == Sampled(pre[1].pass) == {};
    assert NoFeedbackLog(pre);
    PrefixedUpdateNoFeedback(s, pre);
    Step(Update(s).next, pre + Update(s).log)
  }

  /** The dissipation of field `f`'s buffer. */
  function DissipationOf(s: Fluid, f: FieldId): real {
    match f
    case Velocity => s.velocity.diss
    case Density => s.density.diss
    case Temperature => s.temperature.diss
    case Pressure => s.pressure.diss
  }

  /**
   The uniforms an event of a step on `s` binds: an advection uses the time
   step and the dissipation of the field it writes; a jacobi pass uses
   alpha = -cellSize^2 and inverseBeta = 0.25; the divergence pass uses
   0.5 / cellSize; the gradient subtraction uses the stored gradient scale;
   buoyancy uses the ambient temperature, the time step, `smokeBuoyancy` as
   sigma, `smokeWeight` as kappa, and `gForce`. Every kernel that tests for
   obstacles samples the obstacle target (the one `ObstaclesEnd` blits into),
   and a jacobi pass samples the divergence target.
   */
  predicate Binds(s: Fluid, e: Event) {
    e.Render? ==>
      && (e.pass.Advect? || e.pass.ComputeDivergence? || e.pass.Jacobi? || e.pass.SubtractGradient? ==>
            e.pass.obstacles == ObstaclesFbo)
      && (e.pass.Jacobi? ==> e.pass.divergence == DivergenceFbo)
      && (e.pass.Advect? ==>
            e.pass.timeStep == s.config.timeStep
            && e.pass.dest.Slot? && e.pass.dissipation == DissipationOf(s, e.pass.dest.field))
      && (e.pass.Jacobi? ==>
            e.pass.alpha == -(s.config.cellSize * s.config.cellSize) && e.pass.inverseBeta == 0.25)
      && (e.pass.ComputeDivergence? ==> e.pass.halfInverseCellSize * s.config.cellSize == 0.5)
      && (e.pass.SubtractGradient? ==> e.pass.gradientScale == s.config.gradientScale)
      && (e.pass.ApplyBuoyancy? ==>
            && e.pass.ambient == s.config.ambientTemperature && e.pass.timeStep == s.config.timeStep
            && e.pass.sigma == s.config.smokeBuoyancy && e.pass.kappa == s.config.smokeWeight
            && e.pass.gravity == s.config.gForce)
  }

  /**
   Every pass of a step binds the uniforms the state's configuration and
   buffers give, and the obstacle and divergence targets.
   */
  lemma UpdateUniforms(s: Fluid)
    requires Valid(s)
    ensures forall e | e in Update(s).log :: Binds(s, e)
  {
    var n := Iterations(s.config);
    var t := TransportPhase(s);
    var f := ForcePhase(s);
    var d := DivergencePhase(s);
    var x := RelaxLog(s.pressure, n, s.config);
    var p := ProjectionPhase(s);
    PhaseUniforms(s);
    RelaxLogUniforms(s, n);
    assert Update(s).log == t + f + d + x + p;
  }

  lemma PhaseUniforms(s: Fluid)
    requires Valid(s)
    ensures forall e | e in TransportPhase(s) :: Binds(s, e)
    ensures forall e | e in ForcePhase(s) :: Binds(s, e)
    ensures forall e | e in DivergencePhase(s) :: Binds(s, e)
    ensures forall e | e in ProjectionPhase(s) :: Binds(s, e)
  {
    TransportUniforms(s);
    ForceUniforms(s);
  }

  lemma TransportUniforms(s: Fluid)
    ensures forall e | e in TransportPhase(s) :: Binds(s, e)
  {
    var log := TransportPhase(s);
    forall e | e in log ensures Binds(s, e) {
      var k :| 0 <= k < |log| && log[k] == e;
    }
  }

  lemma ForceUniforms(s: Fluid)
    ensures forall e | e in ForcePhase(s) :: Binds(s, e)
  {
    var t1 := SwapBuffer(s.temperature);
    var d1 := SwapBuffer(s.density);
    var v2 := BuoyantVelocity(s);
    QueueSplatsAreImpulses(s.temporal, t1.src, d1.src, v2.src);
    QueueSplatsAreImpulses(s.constant, t1.src, d1.src, v2.src);
  }

  lemma RelaxLogUniforms(s: Fluid, n: nat)
    ensures forall e | e in RelaxLog(s.pressure, n, s.config) :: Binds(s, e)
  {
    var log := RelaxLog(s.pressure, n, s.config);
    forall e | e in log ensures Binds(s, e) {
      var k :| 0 <= k < |log| && log[k] == e;
      var i := k / 2;
      assert k == 2 * i || k == 2 * i + 1;
    }
  }
}
