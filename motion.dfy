/** The cover-flow motion controller as pure functions: one integrator
    sub-step toward the selected slide, and a frame made of equal sub-steps.
    The class in app.dfy runs the same arithmetic in place and is proved
    equal to these functions. */
module Motion {
  import opened MathLib

  /** Continuous position and velocity along the slide axis. */
  datatype State = State(x: real, v: real)

  /** The movement tunables the controller reads. The application also owns
      an approach width, but the controller never reads it: the impulse
      width is the constant ImpulseWidth. */
  datatype Tuning = Tuning(kP: real, vMax: real, aMax: real, approach: real)
  {
    /** The hypotheses under which the clamps bound the velocity. */
    predicate Limits()
    {
      vMax >= 0.0 && aMax >= 0.0
    }
  }

  /** Longest frame the integrator is given, in seconds. */
  const MaxFrameTime: real := 1.0 / 30.0

  /** Number of equal sub-steps per frame. */
  const SubSteps: nat := 10

  /** Width of the approach impulse, fixed in the controller. */
  const ImpulseWidth: real := 0.5

  /** The frame time clamped to MaxFrameTime. */
  function FrameDelta(frameTime: real): (d: real)
    ensures d <= MaxFrameTime && d <= frameTime
    ensures d == frameTime || d == MaxFrameTime
    ensures frameTime >= 0.0 ==> d >= 0.0
  {
    Min(frameTime, MaxFrameTime)
  }

  /** (x/a) exp(1 - x/a), the impulse of width a at x. */
  function Impulse(exp: real -> real, x: real, a: real): real
    requires a != 0.0
  {
    var overA := 1.0 / a;
    overA * x * exp(1.0 - overA * x)
  }

  /** The impulse is zero at x = 0, one at x = a (where exp(0) = 1), and
      never negative for a positive width and a non-negative x. */
  lemma ImpulseShape(exp: real -> real, x: real, a: real)
    requires a != 0.0
    ensures x == 0.0 ==> Impulse(exp, x, a) == 0.0
    ensures x == a && exp(0.0) == 1.0 ==> Impulse(exp, x, a) == 1.0
    ensures ExpLaws(exp) && a > 0.0 && x >= 0.0 ==> Impulse(exp, x, a) >= 0.0
  {
  }

  /** The near-target boost: the impulse of the distance, scaled by approach,
      and negated when the proportional term is negative. */
  function ApproachVelocity(exp: real -> real, err: real, pv: real, approach: real): real
  {
    var base := Impulse(exp, Abs(err), ImpulseWidth) * approach;
    if pv < 0.0 then -base else base
  }

  /** On the target the boost vanishes; otherwise it pushes the same way as
      the proportional term. */
  lemma ApproachVelocitySign(exp: real -> real, err: real, pv: real, approach: real)
    ensures err == 0.0 ==> ApproachVelocity(exp, err, pv, approach) == 0.0
    ensures ExpLaws(exp) && approach >= 0.0 && pv >= 0.0 ==> ApproachVelocity(exp, err, pv, approach) >= 0.0
    ensures ExpLaws(exp) && approach >= 0.0 && pv < 0.0 ==> ApproachVelocity(exp, err, pv, approach) <= 0.0
  {
    ImpulseShape(exp, Abs(err), ImpulseWidth);
    var base := Impulse(exp, Abs(err), ImpulseWidth) * approach;
    if ExpLaws(exp) && approach >= 0.0 {
      assert base >= 0.0;
    }
  }

  /** A velocity clamped to [-vMax, vMax], first from above, then from below. */
  function ClampSpeed(v: real, vMax: real): real
  {
    Max(Min(v, vMax), -vMax)
  }

  /** For vMax >= 0 the clamp lands in [-vMax, vMax], keeps a velocity
      already there, and maps one beyond either bound to that bound. */
  lemma ClampSpeedRange(v: real, vMax: real)
    requires vMax >= 0.0
    ensures -vMax <= ClampSpeed(v, vMax) <= vMax
    ensures -vMax <= v <= vMax ==> ClampSpeed(v, vMax) == v
    ensures v > vMax ==> ClampSpeed(v, vMax) == vMax
    ensures v < -vMax ==> ClampSpeed(v, vMax) == -vMax
  {
  }

  /** r lies on the closed segment between a and b. */
  predicate Between(a: real, r: real, b: real)
  {
    (a <= r <= b) || (b <= r <= a)
  }

  /** The rate limit applied only while speeding up: when |desired| exceeds
      |cur| the change is clamped to [-aMax delta, aMax delta]; otherwise the
      desired velocity is taken as it is. */
  function LimitAcceleration(cur: real, desired: real, aMax: real, delta: real): real
  {
    if Abs(cur) < Abs(desired) then
      var amax := aMax * delta;
      cur + Max(Min(desired - cur, amax), -amax)
    else
      desired
  }

  /** Slowing down takes the desired velocity at once; speeding up changes
      the velocity by at most aMax delta, toward the desired velocity and
      never past it, and reaches it when it is within aMax delta. */
  lemma LimitAccelerationShape(cur: real, desired: real, aMax: real, delta: real)
    ensures !(Abs(cur) < Abs(desired)) ==> LimitAcceleration(cur, desired, aMax, delta) == desired
    ensures Abs(cur) < Abs(desired) && aMax >= 0.0 && delta >= 0.0 ==>
              var r := LimitAcceleration(cur, desired, aMax, delta);
              Abs(r - cur) <= aMax * delta && Between(cur, r, desired) && Abs(r) <= Abs(desired)
    ensures Abs(cur) < Abs(desired) && Abs(desired - cur) <= aMax * delta ==>
              LimitAcceleration(cur, desired, aMax, delta) == desired
  {
  }

  /** The velocity the controller asks for before the acceleration limit. */
  function DesiredVelocity(exp: real -> real, s: State, target: int, t: Tuning): real
  {
    var err := target as real - s.x;
    var pv := err * t.kP;
    ClampSpeed(pv + ApproachVelocity(exp, err, pv, t.approach), t.vMax)
  }

  /** The velocity takes the value v and the position an Euler step of
      length delta with it. */
  function EulerStep(s: State, v: real, delta: real): State
  {
    State(s.x + v * delta, v)
  }

  /** An Euler step of length delta >= 0 at a speed within vMax moves the
      position by at most vMax * delta. */
  lemma EulerStepBound(s: State, v: real, vMax: real, delta: real)
    ensures -vMax <= v <= vMax && delta >= 0.0 ==> Abs(EulerStep(s, v, delta).x - s.x) <= vMax * delta
  {
  }

  /** One integrator sub-step of length delta toward the integer target. */
  function SubStep(exp: real -> real, s: State, target: int, t: Tuning, delta: real): State
  {
    EulerStep(s, LimitAcceleration(s.v, DesiredVelocity(exp, s, target, t), t.aMax, delta), delta)
  }

  /** A sub-step in terms of its new velocity. */
  lemma SubStepOfVelocity(exp: real -> real, s: State, target: int, t: Tuning, delta: real, vel: real)
    requires vel == LimitAcceleration(s.v, DesiredVelocity(exp, s, target, t), t.aMax, delta)
    ensures SubStep(exp, s, target, t, delta) == EulerStep(s, vel, delta)
  {
  }

  /** The desired velocity is within vMax. */
  lemma DesiredBounded(exp: real -> real, s: State, target: int, t: Tuning)
    requires t.vMax >= 0.0
    ensures -t.vMax <= DesiredVelocity(exp, s, target, t) <= t.vMax
  {
  }

  /** A sub-step leaves the speed within vMax, whatever the incoming speed. */
  lemma SubStepSpeed(exp: real -> real, s: State, target: int, t: Tuning, delta: real)
    requires t.Limits() && delta >= 0.0
    ensures -t.vMax <= SubStep(exp, s, target, t, delta).v <= t.vMax
  {
    DesiredBounded(exp, s, target, t);
    LimitAccelerationShape(s.v, DesiredVelocity(exp, s, target, t), t.aMax, delta);
  }

  /** A sub-step moves the position by at most vMax * delta. */
  lemma SubStepDisplacement(exp: real -> real, s: State, target: int, t: Tuning, delta: real)
    requires t.Limits() && delta >= 0.0
    ensures Abs(SubStep(exp, s, target, t, delta).x - s.x) <= t.vMax * delta
  {
    var vel := LimitAcceleration(s.v, DesiredVelocity(exp, s, target, t), t.aMax, delta);
    SubStepSpeed(exp, s, target, t, delta);
    SubStepOfVelocity(exp, s, target, t, delta, vel);
    EulerStepBound(s, vel, t.vMax, delta);
  }

  /** While speeding up the velocity changes by at most aMax * delta toward
      the clamped desired velocity; while slowing down it takes that
      velocity at once. */
  lemma SubStepAcceleration(exp: real -> real, s: State, target: int, t: Tuning, delta: real)
    requires t.aMax >= 0.0 && delta >= 0.0
    ensures var desired := DesiredVelocity(exp, s, target, t);
            var r := SubStep(exp, s, target, t, delta);
            && (Abs(s.v) < Abs(desired) ==> Abs(r.v - s.v) <= t.aMax * delta && Between(s.v, r.v, desired))
            && (Abs(desired) <= Abs(s.v) ==> r.v == desired)
  {
    LimitAccelerationShape(s.v, DesiredVelocity(exp, s, target, t), t.aMax, delta);
  }

  /** Resting on the target is a fixed point of a sub-step. */
  lemma SubStepAtRest(exp: real -> real, s: State, target: int, t: Tuning, delta: real)
    requires t.vMax >= 0.0 && s.x == target as real && s.v == 0.0
    ensures SubStep(exp, s, target, t, delta) == s
  {
    var err := target as real - s.x;
    assert err == 0.0 && Abs(err) == 0.0;
    ImpulseShape(exp, 0.0, ImpulseWidth);
    assert Impulse(exp, Abs(err), ImpulseWidth) == 0.0;
    var pv := err * t.kP;
    assert pv == 0.0;
    assert ApproachVelocity(exp, err, pv, t.approach) == 0.0;
    ClampSpeedRange(0.0, t.vMax);
    assert ClampSpeed(pv + ApproachVelocity(exp, err, pv, t.approach), t.vMax) == 0.0;
    assert DesiredVelocity(exp, s, target, t) == 0.0;
  }

  /** The sub-step as a transition on states. */
  function Step(exp: real -> real, target: int, t: Tuning, delta: real): State -> State
  {
    p => SubStep(exp, p, target, t, delta)
  }

  /** n applications of a transition, in order. */
  function Iterate(step: State -> State, s: State, n: nat): State
  {
    if n == 0 then s else step(Iterate(step, s, n - 1))
  }

  /** The length of one sub-step of a frame. */
  function SubDelta(frameTime: real): real
  {
    FrameDelta(frameTime) / SubSteps as real
  }

  /** One frame: the clamped frame time split into SubSteps equal sub-steps. */
  function Advance(exp: real -> real, s: State, target: int, t: Tuning, frameTime: real): State
  {
    Iterate(Step(exp, target, t, SubDelta(frameTime)), s, SubSteps)
  }

  /** How far one application of a transition moves the position. */
  function Travel(step: State -> State, p: State): real
  {
    step(p).x - p.x
  }

  /** A transition that moves the position by at most k moves it by at most
      n * k in n steps. */
  lemma {:induction false} IterateDisplacement(step: State -> State, s: State, n: nat, k: real)
    requires forall p :: Abs(Travel(step, p)) <= k
    ensures Abs(Iterate(step, s, n).x - s.x) <= (n as real) * k
  {
    if n > 0 {
      var prev := Iterate(step, s, n - 1);
      IterateDisplacement(step, s, n - 1, k);
      assert Abs(Travel(step, prev)) <= k;
    }
  }

  /** A state the transition keeps is kept by any number of steps. */
  lemma {:induction false} IterateFixedPoint(step: State -> State, s: State, n: nat)
    requires step(s) == s
    ensures Iterate(step, s, n) == s
  {
    if n > 0 {
      IterateFixedPoint(step, s, n - 1);
    }
  }

  /** The frame's sub-step length is non-negative and SubSteps of them make
      up the clamped frame time. */
  lemma SubDeltaSplit(frameTime: real, k: real)
    requires frameTime >= 0.0
    ensures SubDelta(frameTime) >= 0.0
    ensures (SubSteps as real) * (k * SubDelta(frameTime)) == k * FrameDelta(frameTime)
  {
  }

  /** After a frame the speed is within vMax, whatever it was before. */
  lemma AdvanceSpeedBounded(exp: real -> real, s: State, target: int, t: Tuning, frameTime: real)
    requires t.Limits() && frameTime >= 0.0
    ensures -t.vMax <= Advance(exp, s, target, t, frameTime).v <= t.vMax
  {
    var delta := SubDelta(frameTime);
    SubDeltaSplit(frameTime, t.vMax);
    var step := Step(exp, target, t, delta);
    SubStepSpeed(exp, Iterate(step, s, SubSteps - 1), target, t, delta);
  }

  /** A transition that moves the position by at most vMax times the
      sub-step length moves it by at most vMax times the clamped frame time
      over the SubSteps sub-steps of a frame. */
  lemma FrameTravel(step: State -> State, s: State, frameTime: real, vMax: real)
    requires frameTime >= 0.0
    requires forall p :: Abs(Travel(step, p)) <= vMax * SubDelta(frameTime)
    ensures Abs(Iterate(step, s, SubSteps).x - s.x) <= vMax * FrameDelta(frameTime)
  {
    IterateDisplacement(step, s, SubSteps, vMax * SubDelta(frameTime));
    SubDeltaSplit(frameTime, vMax);
  }

  /** Every sub-step moves the position by at most vMax * delta. */
  lemma StepTravel(exp: real -> real, target: int, t: Tuning, delta: real)
    ensures t.Limits() && delta >= 0.0 ==>
              forall p :: Abs(Travel(Step(exp, target, t, delta), p)) <= t.vMax * delta
  {
    forall p | t.Limits() && delta >= 0.0 ensures Abs(Travel(Step(exp, target, t, delta), p)) <= t.vMax * delta {
      SubStepDisplacement(exp, p, target, t, delta);
    }
  }

  /** A frame moves the position by at most vMax * min(frameTime, 1/30). */
  lemma AdvanceDisplacement(exp: real -> real, s: State, target: int, t: Tuning, frameTime: real)
    requires t.Limits() && frameTime >= 0.0
    ensures Abs(Advance(exp, s, target, t, frameTime).x - s.x) <= t.vMax * FrameDelta(frameTime)
  {
    StepTravel(exp, target, t, SubDelta(frameTime));
    FrameTravel(Step(exp, target, t, SubDelta(frameTime)), s, frameTime, t.vMax);
  }

  /** Resting on the target is a fixed point of a frame. */
  lemma AdvanceAtRest(exp: real -> real, s: State, target: int, t: Tuning, frameTime: real)
    requires t.vMax >= 0.0 && s.x == target as real && s.v == 0.0
    ensures Advance(exp, s, target, t, frameTime) == s
  {
    var step := Step(exp, target, t, SubDelta(frameTime));
    SubStepAtRest(exp, s, target, t, SubDelta(frameTime));
    IterateFixedPoint(step, s, SubSteps);
  }

  /** The frame-level guarantees together, each under its own hypotheses. */
  lemma AdvanceGuarantees(exp: real -> real, s: State, target: int, t: Tuning, frameTime: real)
    ensures t.Limits() && frameTime >= 0.0 ==> -t.vMax <= Advance(exp, s, target, t, frameTime).v <= t.vMax
    ensures t.Limits() && frameTime >= 0.0 ==>
              Abs(Advance(exp, s, target, t, frameTime).x - s.x) <= t.vMax * FrameDelta(frameTime)
    ensures t.vMax >= 0.0 && s.x == target as real && s.v == 0.0 ==> Advance(exp, s, target, t, frameTime) == s
  {
    if t.Limits() && frameTime >= 0.0 {
      AdvanceSpeedBounded(exp, s, target, t, frameTime);
      AdvanceDisplacement(exp, s, target, t, frameTime);
    }
    if t.vMax >= 0.0 && s.x == target as real && s.v == 0.0 {
      AdvanceAtRest(exp, s, target, t, frameTime);
    }
  }
}
