/**
 Point forces and the impulse passes one force produces in a step.
 */
module Forces {
  import opened Vectors
  import opened Schedule

  /** A point force in grid space. */
  datatype Force = Force(pos: Vec2, vel: Vec2, color: Vec3, rad: real, temp: real, den: real)

  /**
   The force an add call records: the position is taken from display space
   to grid space by multiplying by `scale`; the colour keeps only r, g, b.
   */
  function MakeForce(pos: Vec2, vel: Vec2, col: Vec4, rad: real, temp: real, den: real, scale: real): Force {
    Force(Scale2(scale, pos), vel, Vec3(col.r, col.g, col.b), rad, temp, den)
  }

  /** The temperature splat: value `(temp, temp, temp)` into temperature's current target. */
  function TemperatureSplat(f: Force, tSrc: nat): Event {
    Render(ApplyImpulse(Slot(Temperature, tSrc), f.pos, f.rad, Vec3(f.temp, f.temp, f.temp)))
  }

  /** The density splat: value `color * den` into density's current target. */
  function DensitySplat(f: Force, dSrc: nat): Event {
    Render(ApplyImpulse(Slot(Density, dSrc), f.pos, f.rad, Scale3(f.den, f.color)))
  }

  /** The velocity splat: the 2-vector `vel` widened to `(vel.x, vel.y, 0)`, into velocity's current target. */
  function VelocitySplat(f: Force, vSrc: nat): Event {
    Render(ApplyImpulse(Slot(Velocity, vSrc), f.pos, f.rad, Vec3(f.vel.x, f.vel.y, 0.0)))
  }

  /** Number of splats a force produces: one, plus one for a non-zero colour, plus one for a non-zero velocity. */
  function SplatsOf(f: Force): nat {
    1 + (if f.color != Zero3 then 1 else 0) + (if f.vel != Zero2 then 1 else 0)
  }

  /**
   The splats of one force, drawn into the fields' current (`src`) targets
   `tSrc`, `dSrc`, `vSrc`. A vector's length is zero exactly when the
   vector is zero, so the length tests are tests against the zero vector.
   */
  function ForceSplats(f: Force, tSrc: nat, dSrc: nat, vSrc: nat): (log: seq<Event>)
    ensures |log| == SplatsOf(f)
    ensures log[0] == TemperatureSplat(f, tSrc)
    ensures DensitySplat(f, dSrc) in log <==> f.color != Zero3
    ensures VelocitySplat(f, vSrc) in log <==> f.vel != Zero2
    ensures forall e | e in log :: e in {TemperatureSplat(f, tSrc), DensitySplat(f, dSrc), VelocitySplat(f, vSrc)}
    ensures Pressure !in FieldsWritten(log)
  {
    [TemperatureSplat(f, tSrc)]
    + (if f.color != Zero3 then [DensitySplat(f, dSrc)] else [])
    + (if f.vel != Zero2 then [VelocitySplat(f, vSrc)] else [])
  }

  /** The fields whose slots a log's passes draw into. */
  function FieldsWritten(log: seq<Event>): set<FieldId> {
    set e | e in log && e.Render? && e.pass.dest.Slot? :: e.pass.dest.field
  }

  /** The splats of every force of a queue, in queue order. */
  function QueueSplats(q: seq<Force>, tSrc: nat, dSrc: nat, vSrc: nat): seq<Event> {
    if q == [] then []
    else ForceSplats(q[0], tSrc, dSrc, vSrc) + QueueSplats(q[1..], tSrc, dSrc, vSrc)
  }

  function SplatCount(q: seq<Force>): nat {
    if q == [] then 0 else SplatsOf(q[0]) + SplatCount(q[1..])
  }

  /**
   A queue's splats are exactly `SplatCount(q)` impulse passes, none of which
   samples its target, and no swap.
   */
  lemma {:induction false} QueueSplatsShape(q: seq<Force>, tSrc: nat, dSrc: nat, vSrc: nat)
    ensures Kinds(QueueSplats(q, tSrc, dSrc, vSrc)) == Repeat(ImpulseKind, SplatCount(q))
    ensures NoFeedbackLog(QueueSplats(q, tSrc, dSrc, vSrc))
    ensures forall f: FieldId :: SwapCount(QueueSplats(q, tSrc, dSrc, vSrc), f) == 0
    decreases |q|
  {
    if q != [] {
      var head := ForceSplats(q[0], tSrc, dSrc, vSrc);
      var rest := QueueSplats(q[1..], tSrc, dSrc, vSrc);
      QueueSplatsShape(q[1..], tSrc, dSrc, vSrc);
      KindsAppend(head, rest);
      SplatLogShape(head);
      RepeatAppend(ImpulseKind, |head|, SplatCount(q[1..]));
    }
  }

  /** A queue's splats are impulse passes and nothing else. */
  lemma {:induction false} QueueSplatsAreImpulses(q: seq<Force>, tSrc: nat, dSrc: nat, vSrc: nat)
    ensures forall e | e in QueueSplats(q, tSrc, dSrc, vSrc) :: e.Render? && e.pass.ApplyImpulse?
    decreases |q|
  {
    if q != [] {
      QueueSplatsAreImpulses(q[1..], tSrc, dSrc, vSrc);
    }
  }

  /** A log of impulse passes and nothing else. */
  lemma {:induction false} SplatLogShape(log: seq<Event>)
    requires forall e | e in log :: e.Render? && e.pass.ApplyImpulse?
    ensures Kinds(log) == Repeat(ImpulseKind, |log|)
    ensures forall f: FieldId :: SwapCount(log, f) == 0
    ensures NoFeedbackLog(log)
    decreases |log|
  {
    if log != [] {
      var head := log[0];
      var rest := log[1..];
      assert head in log;
      assert forall e | e in rest :: e in log;
      SplatLogShape(rest);
      assert Kinds(log) == [ImpulseKind] + Kinds(rest);
      assert Repeat(ImpulseKind, |log|) == [ImpulseKind] + Repeat(ImpulseKind, |rest|);
      forall f: FieldId ensures SwapCount(log, f) == 0 {
        assert SwapCount(log, f) == 0 + SwapCount(rest, f);
      }
      assert NoFeedback(head.pass);
      assert forall e | e in log :: e == head || e in rest;
    }
  }
}
