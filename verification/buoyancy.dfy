/**
 The apply-buoyancy kernel: cells hotter than the ambient temperature are
 pushed along gravity by a force that grows with the temperature excess and
 shrinks with the smoke density.
 */
module Buoyancy {
  import opened Vectors
  import opened Stencils

  /** The scalar multiplying gravity at a hot cell: `TimeStep*(T-Ambient)*Sigma - D*Kappa`. */
  function Lift(t: real, d: real, ambient: real, timeStep: real, sigma: real, kappa: real): real {
    timeStep * (t - ambient) * sigma - d * kappa
  }

  /**
   The apply-buoyancy shader: temperature, velocity and density texels at the
   cell and the shader's uniforms. Only `.rg` is written.
   */
  function BuoyancyKernel(temperature: Vec4, velocity: Vec4, density: Vec4, ambient: real,
                          timeStep: real, sigma: real, kappa: real, gravity: Vec2): (r: Frag)
    ensures r.r.Written? && r.g.Written? && r.b == Unwritten && r.a == Unwritten
    ensures temperature.r <= ambient ==> r == RGOnly(RG(velocity))
    ensures temperature.r > ambient ==>
              var gain := timeStep * (temperature.r - ambient) * sigma - density.r * kappa;
              r == RGOnly(Vec2(velocity.r + gain * gravity.x, velocity.g + gain * gravity.y))
  {
    var t := temperature.r;
    var v := RG(velocity);
    if t > ambient then
      RGOnly(Add2(v, Scale2(Lift(t, density.r, ambient, timeStep, sigma, kappa), gravity)))
    else
      RGOnly(v)
  }

  /** The gravity the solver binds by default. */
  const DefaultGravity: Vec2 := Vec2(0.0, -0.98)

  /**
   Under the default gravity a hot cell keeps its x velocity, and its y
   velocity falls (the plume moves towards -y) exactly when the thermal term
   outweighs the smoke weight.
   */
  lemma HotCellsRiseTowardsNegativeY(temperature: Vec4, velocity: Vec4, density: Vec4, ambient: real,
                                     timeStep: real, sigma: real, kappa: real)
    requires temperature.r > ambient
    ensures BuoyancyKernel(temperature, velocity, density, ambient, timeStep, sigma, kappa, DefaultGravity).r
            == Written(velocity.r)
    ensures BuoyancyKernel(temperature, velocity, density, ambient, timeStep, sigma, kappa, DefaultGravity).g
              .value < velocity.g
            <==> timeStep * (temperature.r - ambient) * sigma > density.r * kappa
  {
    var k := Lift(temperature.r, density.r, ambient, timeStep, sigma, kappa);
    assert k * -0.98 < 0.0 <==> k > 0.0;
  }

  /**
   The gain is linear in the temperature excess: two hot cells with the same
   velocity and density end with y velocities that differ by
   `TimeStep*Sigma*(T2 - T1)*Gravity.y`, and likewise for x.
   */
  lemma BuoyancyLinearInTemperature(t1: Vec4, t2: Vec4, velocity: Vec4, density: Vec4, ambient: real,
                                    timeStep: real, sigma: real, kappa: real, gravity: Vec2)
    requires ambient < t1.r && ambient < t2.r
    ensures BuoyancyKernel(t2, velocity, density, ambient, timeStep, sigma, kappa, gravity).g.value
            - BuoyancyKernel(t1, velocity, density, ambient, timeStep, sigma, kappa, gravity).g.value
            == timeStep * sigma * (t2.r - t1.r) * gravity.y
    ensures BuoyancyKernel(t2, velocity, density, ambient, timeStep, sigma, kappa, gravity).r.value
            - BuoyancyKernel(t1, velocity, density, ambient, timeStep, sigma, kappa, gravity).r.value
            == timeStep * sigma * (t2.r - t1.r) * gravity.x
  {
    var k1 := Lift(t1.r, density.r, ambient, timeStep, sigma, kappa);
    var k2 := Lift(t2.r, density.r, ambient, timeStep, sigma, kappa);
    var w := timeStep * sigma * (t2.r - t1.r);
    assert k2 - k1 == w;
    assert k2 * gravity.y - k1 * gravity.y == (k2 - k1) * gravity.y;
    assert k2 * gravity.x - k1 * gravity.x == (k2 - k1) * gravity.x;
  }

  lemma ScaleMonotone(k: real, a: real, b: real)
    requires 0.0 <= k && a <= b
    ensures k * a <= k * b
  {
    assert k * b - k * a == k * (b - a);
  }

  /**
   Hotter is lighter: with a non-negative time step and buoyancy and a
   gravity pointing towards -y, raising the temperature of a hot cell never
   raises its resulting y velocity.
   */
  lemma HotterRisesFaster(t1: Vec4, t2: Vec4, velocity: Vec4, density: Vec4, ambient: real,
                          timeStep: real, sigma: real, kappa: real, gravity: Vec2)
    requires ambient < t1.r <= t2.r
    requires timeStep >= 0.0 && sigma >= 0.0 && gravity.y <= 0.0
    ensures BuoyancyKernel(t2, velocity, density, ambient, timeStep, sigma, kappa, gravity).g.value
            <= BuoyancyKernel(t1, velocity, density, ambient, timeStep, sigma, kappa, gravity).g.value
  {
    var k1 := Lift(t1.r, density.r, ambient, timeStep, sigma, kappa);
    var k2 := Lift(t2.r, density.r, ambient, timeStep, sigma, kappa);
    ScaleMonotone(timeStep * sigma, t1.r - ambient, t2.r - ambient);
    assert timeStep * (t1.r - ambient) * sigma == timeStep * sigma * (t1.r - ambient);
    assert timeStep * (t2.r - ambient) * sigma == timeStep * sigma * (t2.r - ambient);
    assert k1 <= k2;
    ScaleMonotone(-gravity.y, k1, k2);
    assert k2 * gravity.y <= k1 * gravity.y;
  }
}
