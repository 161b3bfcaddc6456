/**
 The advect kernel: semi-Lagrangian transport of a field along the velocity
 field, damped by the field's dissipation, and zero inside obstacles.
 */
module Advection {
  import opened Vectors
  import opened Stencils

  /** Where the parcel now at `st` stood one time step earlier. */
  function Backtrace(st: Vec2, u: Vec2, timeStep: real): Vec2 {
    Sub2(st, Scale2(timeStep, u))
  }

  /**
   The advect shader at coordinate `st`. `obstacle` and `velocity` are the
   obstacle and velocity texels at `st`; `source` samples the advected field
   at an arbitrary coordinate (its filtering and edge behaviour are the
   sampler's and are not modelled).
   */
  function Advect(st: Vec2, obstacle: Vec4, velocity: Vec4, source: Vec2 -> Vec4,
                  timeStep: real, dissipation: real): (r: Vec4)
    ensures Solid(obstacle) ==> r == Zero4
    ensures !Solid(obstacle) && dissipation == 1.0 ==>
              r == source(Backtrace(st, RG(velocity), timeStep))
    ensures !Solid(obstacle) && RG(velocity) == Zero2 ==> r == Scale4(dissipation, source(st))
  {
    if Solid(obstacle) then Zero4
    else Scale4(dissipation, source(Backtrace(st, RG(velocity), timeStep)))
  }

  /**
   Dissipation only scales: for any dissipation and velocity the result is the
   dissipation times the undamped (dissipation 1) advection, which the
   contract above pins to the back-traced sample at a fluid cell.
   */
  lemma AdvectScalesByDissipation(st: Vec2, obstacle: Vec4, velocity: Vec4, source: Vec2 -> Vec4,
                                  timeStep: real, dissipation: real)
    ensures Advect(st, obstacle, velocity, source, timeStep, dissipation)
            == Scale4(dissipation, Advect(st, obstacle, velocity, source, timeStep, 1.0))
  {
  }

  lemma MulNonNegative(a: real, b: real)
    requires 0.0 <= a && 0.0 <= b
    ensures 0.0 <= a * b
  {
  }

  /** `y = k * x` with `k` in [0,1] and `x` non-negative lies in [0, x]. */
  lemma ShrinkChannel(k: real, x: real, y: real)
    requires 0.0 <= k <= 1.0 && 0.0 <= x && y == k * x
    ensures 0.0 <= y <= x
  {
    MulNonNegative(k, x);
    MulNonNegative(1.0 - k, x);
    assert (1.0 - k) * x == x - k * x;
  }

  /** Scaling a non-negative value by a factor in [0,1] keeps it non-negative and no larger. */
  lemma ShrinkVec(k: real, v: Vec4)
    requires 0.0 <= k <= 1.0 && NonNegative4(v)
    ensures NonNegative4(Scale4(k, v)) && Below4(Scale4(k, v), v)
  {
    var w := Scale4(k, v);
    ShrinkChannel(k, v.r, w.r);
    ShrinkChannel(k, v.g, w.g);
    ShrinkChannel(k, v.b, w.b);
    ShrinkChannel(k, v.a, w.a);
  }

  /**
   With a dissipation in [0,1] and a non-negative sample at the back-traced
   point, advection yields a non-negative value no larger, channel by channel,
   than that sample: advection never creates density or heat.
   */
  lemma AdvectDissipates(st: Vec2, obstacle: Vec4, velocity: Vec4, source: Vec2 -> Vec4,
                         timeStep: real, dissipation: real)
    requires 0.0 <= dissipation <= 1.0
    requires NonNegative4(source(Backtrace(st, RG(velocity), timeStep)))
    ensures NonNegative4(Advect(st, obstacle, velocity, source, timeStep, dissipation))
    ensures Below4(Advect(st, obstacle, velocity, source, timeStep, dissipation),
                   source(Backtrace(st, RG(velocity), timeStep)))
  {
    var sample := source(Backtrace(st, RG(velocity), timeStep));
    if !Solid(obstacle) {
      ShrinkVec(dissipation, sample);
    }
  }
}
