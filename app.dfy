/** The application object of the cover flow: the tunables, the controller
    state and the selection that the frame update and the key handler change
    in place, and the per-frame placement of the slides. */
module CoverFlow {
  import opened MathLib
  import opened Motion
  import opened Selection
  import opened Fields

  /** Movement tunables the application starts with. */
  const DefaultTuning: Tuning := Tuning(5.0, 15.0, 40.0, 1.0)

  /** The velocity a sub-step asks for, computed as the controller does:
      the distance to the target, the proportional term, the approach
      impulse negated when the proportional term is negative, and the clamp
      to [-vMax, vMax] from above and then from below. */
  method DesiredSpeed(exp: real -> real, s: State, target: int, t: Tuning) returns (vel: real)
    ensures vel == DesiredVelocity(exp, s, target, t)
  {
    var err := target as real - s.x;
    var pv := err * t.kP;
    var nv := Impulse(exp, Abs(err), ImpulseWidth) * t.approach;
    if pv < 0.0 {
      nv := -nv;
    }
    vel := pv + nv;
    vel := Min(vel, t.vMax);
    vel := Max(vel, -t.vMax);
  }

  /** The acceleration limit as the controller applies it: only when the
      desired speed exceeds the current one is the change clamped to
      [-aMax delta, aMax delta]. */
  method RateLimited(cur: real, desired: real, aMax: real, delta: real) returns (vel: real)
    ensures vel == LimitAcceleration(cur, desired, aMax, delta)
  {
    vel := desired;
    if Abs(cur) < Abs(vel) {
      var amax := aMax * delta;
      var a := vel - cur;
      a := Min(a, amax);
      a := Max(a, -amax);
      vel := cur + a;
    }
  }

  /** The velocity at the end of one sub-step of length delta from s: the
      sub-step is the Euler step with it. */
  method SubStepVelocity(exp: real -> real, s: State, target: int, t: Tuning, delta: real) returns (vel: real)
    ensures SubStep(exp, s, target, t, delta) == EulerStep(s, vel, delta)
  {
    var desired := DesiredSpeed(exp, s, target, t);
    vel := RateLimited(s.v, desired, t.aMax, delta);
    SubStepOfVelocity(exp, s, target, t, delta, vel);
  }

  class App {
    // field shaping
    var edgeSlope: real
    var positionRoughness: real
    var centerArea: real
    var rotationArea: real
    var rotation: real
    var zoomArea: real
    var zoom: real

    // movement
    var kP: real
    var vMax: real
    var aMax: real
    var approach: real
    var approachWide: real

    // controller position and velocity, and the selected slide
    var x: real
    var v: real
    var toX: int

    function CurrentState(): State
      reads this`x, this`v
    {
      State(x, v)
    }

    function CurrentTuning(): Tuning
      reads this`kP, this`vMax, this`aMax, this`approach
    {
      Tuning(kP, vMax, aMax, approach)
    }

    function CurrentShape(): Shape
      reads this
    {
      Shape(edgeSlope, positionRoughness, centerArea, rotationArea, rotation, zoomArea, zoom)
    }

    /** The selection names one of the slides. */
    ghost predicate SelectionInRange()
      reads this
    {
      0 <= toX <= SlideN - 1
    }

    /** The application at start: at rest on slide 0, with every movement
        tunable non-negative and every field width non-zero. The approach
        width starts at the value the controller uses as its fixed impulse
        width. */
    constructor ()
      ensures x == 0.0 && v == 0.0 && toX == 0
      ensures CurrentTuning() == DefaultTuning
      ensures CurrentShape() == DefaultShape
      ensures approachWide == ImpulseWidth
      ensures SelectionInRange()
      ensures CurrentTuning().Limits() && kP >= 0.0 && approach >= 0.0 && approachWide >= 0.0
      ensures WidthsNonZero(CurrentShape())
    {
      edgeSlope := 0.3;
      positionRoughness := 0.7;
      centerArea := 1.1;
      rotationArea := 0.7;
      rotation := 70.0;
      zoomArea := 0.7;
      zoom := 0.5;
      kP := 5.0;
      vMax := 15.0;
      aMax := 40.0;
      approach := 1.0;
      approachWide := 0.5;
      x := 0.0;
      v := 0.0;
      toX := 0;
    }

    /** One sub-step of length delta toward the selected slide, in place:
        the velocity is replaced by the rate-limited desired velocity and the
        position takes an Euler step with it. Only x and v change. */
    method SubStepInPlace(delta: real, exp: real -> real)
      modifies this`x, this`v
      ensures CurrentState() == SubStep(exp, old(CurrentState()), toX, CurrentTuning(), delta)
    {
      ghost var s := CurrentState();
      var vel := SubStepVelocity(exp, CurrentState(), toX, CurrentTuning(), delta);
      v := vel;
      x := x + v * delta;
      assert CurrentState() == EulerStep(s, vel, delta);
    }

    /** One frame: the frame time is clamped to 1/30 s and split into ten
        equal sub-steps, each of which moves (x, v) toward the selected
        slide. Only x and v change. */
    method Update(frameTime: real, m: Lib)
      requires frameTime >= 0.0
      modifies this`x, this`v
      ensures CurrentState() == Advance(m.exp, old(CurrentState()), toX, CurrentTuning(), frameTime)
      ensures CurrentTuning().Limits() ==> -vMax <= v <= vMax
      ensures vMax >= 0.0 && old(x) == toX as real && old(v) == 0.0 ==> x == old(x) && v == old(v)
    {
      var d := Min(frameTime, MaxFrameTime);
      var n := SubSteps;
      var delta := d / n as real;
      ghost var step := Step(m.exp, toX, CurrentTuning(), delta);
      for i := 0 to n
        invariant CurrentState() == Iterate(step, old(CurrentState()), i)
      {
        SubStepInPlace(delta, m.exp);
      }
      AdvanceGuarantees(m.exp, old(CurrentState()), toX, CurrentTuning(), frameTime);
    }

    /** The arrow keys move the selection by one slide; the selection is then
        clamped to the row. Only the selection changes. */
    method KeyPressed(key: int)
      modifies this`toX
      ensures toX == AfterKey(old(toX), key)
      ensures SelectionInRange()
    {
      if key == KeyRight {
        toX := toX + 1;
      }
      if key == KeyLeft {
        toX := toX - 1;
      }
      toX := if toX < SlideN - 1 then toX else SlideN - 1;
      toX := if toX > 0 then toX else 0;
    }

    /** The placement of every slide for the current controller position, in
        slide order. */
    method Layout(m: Lib) returns (placements: seq<Placement>)
      requires WidthsNonZero(CurrentShape())
      ensures |placements| == SlideN
      ensures forall i :: 0 <= i < SlideN ==> placements[i] == Place(m, CurrentShape(), x, i)
    {
      var step := 1.0;
      placements := [];
      for i := 0 to SlideN
        invariant |placements| == i
        invariant forall k :: 0 <= k < i ==> placements[k] == Place(m, CurrentShape(), x, k)
      {
        var z := (i as real) * step - x;
        var position := PositionField(m, z, positionRoughness, edgeSlope, centerArea);
        var rot := RotationField(m, z, rotationArea);
        var zoomValue := ZoomField(m, z, zoomArea);
        placements := placements + [Placement(position, rot * rotation, zoomValue * zoom)];
      }
    }
  }
}
