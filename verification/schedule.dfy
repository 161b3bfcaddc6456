/**
 The render targets of the solver and the log of the passes a step runs:
 which kernel, which targets it samples, which target it draws into, and
 the uniforms it binds. A log also records every ping-pong swap.
 */
module Schedule {
  import opened Vectors

  datatype FieldId = Velocity | Density | Temperature | Pressure

  /** `Slot(f, i)` is `FBOs[i]` of field `f`'s buffer; the others are the single-buffered targets. */
  datatype Target = Slot(field: FieldId, index: nat) | DivergenceFbo | ObstaclesFbo | HiresObstaclesFbo

  /** One full-screen pass: a kernel drawn into `dest`. */
  datatype Pass =
    | Advect(velocity: Target, source: Target, obstacles: Target, dest: Target,
             timeStep: real, dissipation: real)
    | ApplyBuoyancy(velocity: Target, temperature: Target, density: Target, dest: Target,
                    ambient: real, timeStep: real, sigma: real, kappa: real, gravity: Vec2)
      /** Drawn with blending on into `dest`; the shader samples no texture. */
    | ApplyImpulse(dest: Target, point: Vec2, radius: real, value: Vec3)
    | ComputeDivergence(velocity: Target, obstacles: Target, dest: Target, halfInverseCellSize: real)
      /** `ofClear(brightness, alpha)` on `dest`. */
    | Clear(dest: Target, brightness: real, alpha: real)
    | Jacobi(pressure: Target, divergence: Target, obstacles: Target, dest: Target,
             alpha: real, inverseBeta: real)
    | SubtractGradient(velocity: Target, pressure: Target, obstacles: Target, dest: Target,
                       gradientScale: real)
      /** `source` drawn, resampled, into `dest`. */
    | Blit(source: Target, dest: Target)
      /** A host texture drawn into `dest`. */
    | DrawTexture(dest: Target)

  /** The targets a pass binds as textures. */
  function Sampled(p: Pass): set<Target> {
    match p
    case Advect(v, src, o, _, _, _) => {v, src, o}
    case ApplyBuoyancy(v, t, d, _, _, _, _, _, _) => {v, t, d}
    case ApplyImpulse(_, _, _, _) => {}
    case ComputeDivergence(v, o, _, _) => {v, o}
    case Clear(_, _, _) => {}
    case Jacobi(p, b, o, _, _, _) => {p, b, o}
    case SubtractGradient(v, p, o, _, _) => {v, p, o}
    case Blit(src, _) => {src}
    case DrawTexture(_) => {}
  }

  /** A pass never samples the target it is drawing into. */
  predicate NoFeedback(p: Pass) {
    p.dest !in Sampled(p)
  }

  datatype Event = Render(pass: Pass) | Swap(field: FieldId)

  predicate NoFeedbackLog(log: seq<Event>) {
    forall e | e in log && e.Render? :: NoFeedback(e.pass)
  }

  /** Two logs free of feedback concatenate to one. */
  lemma NoFeedbackLogAppend(a: seq<Event>, b: seq<Event>)
    requires NoFeedbackLog(a) && NoFeedbackLog(b)
    ensures NoFeedbackLog(a + b)
  {
    assert forall e | e in a + b :: e in a || e in b;
  }

  /** The kernel a pass runs, without its targets and uniforms. */
  datatype Kind =
    | AdvectKind | BuoyancyKind | ImpulseKind | DivergenceKind | ClearKind
    | JacobiKind | SubtractGradientKind | BlitKind | DrawKind

  function KindOf(p: Pass): Kind {
    match p
    case Advect(_, _, _, _, _, _) => AdvectKind
    case ApplyBuoyancy(_, _, _, _, _, _, _, _, _) => BuoyancyKind
    case ApplyImpulse(_, _, _, _) => ImpulseKind
    case ComputeDivergence(_, _, _, _) => DivergenceKind
    case Clear(_, _, _) => ClearKind
    case Jacobi(_, _, _, _, _, _) => JacobiKind
    case SubtractGradient(_, _, _, _, _) => SubtractGradientKind
    case Blit(_, _) => BlitKind
    case DrawTexture(_) => DrawKind
  }

  /** The kernels a log runs, in order; swaps are dropped. */
  function Kinds(log: seq<Event>): seq<Kind> {
    if log == [] then []
    else (if log[0].Render? then [KindOf(log[0].pass)] else []) + Kinds(log[1..])
  }

  /** How many swaps of `f` a log records. */
  function SwapCount(log: seq<Event>, f: FieldId): nat {
    if log == [] then 0
    else (if log[0] == Swap(f) then 1 else 0) + SwapCount(log[1..], f)
  }

  function Repeat(k: Kind, n: nat): (r: seq<Kind>)
    ensures |r| == n && forall i :: 0 <= i < n ==> r[i] == k
  {
    if n == 0 then [] else [k] + Repeat(k, n - 1)
  }

  lemma {:induction false} KindsAppend(a: seq<Event>, b: seq<Event>)
    ensures Kinds(a + b) == Kinds(a) + Kinds(b)
    ensures forall f: FieldId :: SwapCount(a + b, f) == SwapCount(a, f) + SwapCount(b, f)
  {
    KindsOfAppend(a, b);
    forall f: FieldId ensures SwapCount(a + b, f) == SwapCount(a, f) + SwapCount(b, f) {
      SwapCountAppend(a, b, f);
    }
  }

  lemma {:induction false} KindsOfAppend(a: seq<Event>, b: seq<Event>)
    ensures Kinds(a + b) == Kinds(a) + Kinds(b)
    decreases |a|
  {
    if a == [] {
      assert a + b == b;
    } else {
      var ab := a + b;
      assert ab[0] == a[0];
      assert ab[1..] == a[1..] + b;
      KindsOfAppend(a[1..], b);
      assert Kinds(ab) == (if a[0].Render? then [KindOf(a[0].pass)] else []) + Kinds(a[1..] + b);
      assert Kinds(a) == (if a[0].Render? then [KindOf(a[0].pass)] else []) + Kinds(a[1..]);
    }
  }

  lemma {:induction false} SwapCountAppend(a: seq<Event>, b: seq<Event>, f: FieldId)
    ensures SwapCount(a + b, f) == SwapCount(a, f) + SwapCount(b, f)
    decreases |a|
  {
    if a == [] {
      assert a + b == b;
    } else {
      assert (a + b)[1..] == a[1..] + b;
      SwapCountAppend(a[1..], b, f);
    }
  }

  lemma RepeatAppend(k: Kind, m: nat, n: nat)
    ensures Repeat(k, m) + Repeat(k, n) == Repeat(k, m + n)
  {
  }

  /** A pass followed by a swap. */
  lemma PassAndSwapShape(p: Pass, g: FieldId)
    ensures Kinds([Render(p), Swap(g)]) == [KindOf(p)]
    ensures forall f: FieldId :: SwapCount([Render(p), Swap(g)], f) == if f == g then 1 else 0
  {
    var log := [Render(p), Swap(g)];
    assert log[1..] == [Swap(g)];
    assert [Swap(g)][1..] == [];
    assert Kinds([Swap(g)]) == [];
    assert Kinds(log) == [KindOf(p)] + Kinds([Swap(g)]);
    forall f: FieldId ensures SwapCount(log, f) == if f == g then 1 else 0 {
      assert SwapCount([Swap(g)], f) == (if f == g then 1 else 0) + SwapCount([], f);
    }
  }
}
