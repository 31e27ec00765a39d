/**
 * The two scalar integrators of the character controller: a step of
 * acceleration that is damped once it passes a terminal value, and a linear
 * deceleration towards rest.
 */
module ControllerMath {

  /** Rust's `f32::signum` on the values modelled here: `+0.0` counts as positive. */
  function Signum(x: real): real {
    if x >= 0.0 then 1.0 else -1.0
  }

  function Max(a: real, b: real): real { if a >= b then a else b }
  function Min(a: real, b: real): real { if a <= b then a else b }

  /** The undamped step has not passed `terminal` (seen from the side `signum` puts zero on). */
  predicate NotPassed(next: real, terminal: real) {
    (terminal >= 0.0 && next <= terminal) || (terminal < 0.0 && next > terminal)
  }

  /** `current` is already beyond `terminal`, away from zero. */
  predicate Beyond(current: real, terminal: real) {
    (terminal >= 0.0 && current > terminal) || (terminal < 0.0 && current <= terminal)
  }

  /**
   * One step of `acceleration` over `deltaTime` towards the speed cap `terminal`.
   * While the plain step has not passed `terminal` it is returned as it is; a value
   * already beyond `terminal` snaps to it; otherwise the step is damped with the
   * coefficient `acceleration / terminal` and clamped so that it ends at or beyond
   * `terminal`. With `terminal == 0` the damping coefficient is an IEEE infinity,
   * the damped value is negative infinity and the clamp yields `terminal`; the
   * model returns `terminal` there directly.
   */
  function ApproachVelocity(current: real, acceleration: real, deltaTime: real, terminal: real): real
  {
    var next := current + acceleration * deltaTime;
    if Signum(terminal - next) == Signum(terminal) then next
    else if Signum(terminal - current) != Signum(terminal) then terminal
    else if terminal == 0.0 then terminal
    else
      var damping := acceleration / terminal;
      var dampedNext := next - damping * next * deltaTime;
      if Signum(terminal) > 0.0 then Max(dampedNext, terminal) else Min(dampedNext, terminal)
  }

  /**
   * The three outcomes of a step: the plain step while it has not passed the
   * cap, the cap itself for a value already beyond it, and otherwise a value at
   * or beyond the cap.
   */
  lemma ApproachVelocityBranches(current: real, acceleration: real, deltaTime: real, terminal: real)
    ensures NotPassed(current + acceleration * deltaTime, terminal) ==>
              ApproachVelocity(current, acceleration, deltaTime, terminal) == current + acceleration * deltaTime
    ensures !NotPassed(current + acceleration * deltaTime, terminal) && Beyond(current, terminal) ==>
              ApproachVelocity(current, acceleration, deltaTime, terminal) == terminal
    ensures !NotPassed(current + acceleration * deltaTime, terminal) && !Beyond(current, terminal) ==>
              (terminal >= 0.0 ==> ApproachVelocity(current, acceleration, deltaTime, terminal) >= terminal)
              && (terminal < 0.0 ==> ApproachVelocity(current, acceleration, deltaTime, terminal) <= terminal)
  {
  }

  /** The acceleration pushes towards the terminal value: same sign, or none. */
  predicate Towards(acceleration: real, terminal: real) {
    (terminal > 0.0 && acceleration >= 0.0) || (terminal < 0.0 && acceleration <= 0.0)
  }

  lemma DampingRewrite(a: real, t: real, next: real, dt: real)
    requires t != 0.0
    ensures (a / t) * next * dt == next * ((a * dt) / t)
  {
  }

  lemma MulNonnegMonotone(p: real, q: real, k: real)
    requires p <= q && k >= 0.0
    ensures p * k <= q * k
  {
  }

  /** For a positive cap: a crossing step started at or below the cap is damped to at most the cap. */
  lemma DampedAtMostCap(t: real, x: real, next: real)
    requires t > 0.0 && x > 0.0 && t < next <= t + x
    ensures next - next * (x / t) <= t
  {
    var e := x / t;
    assert e > 0.0;
    assert x == e * t;
    if e >= 1.0 {
      MulNonnegMonotone(1.0, e, next);
      assert next * e >= next;
    } else {
      assert next - next * e == next * (1.0 - e);
      MulNonnegMonotone(next, t + x, 1.0 - e);
      assert (t + x) * (1.0 - e) == t * (1.0 + e) * (1.0 - e);
      assert t * (1.0 + e) * (1.0 - e) == t - t * (e * e);
      assert e * e >= 0.0;
      MulNonnegMonotone(0.0, e * e, t);
    }
  }

  /** For a negative cap: a crossing step started above the cap is damped to at least the cap. */
  lemma DampedAtLeastCap(t: real, x: real, next: real)
    requires t < 0.0 && x < 0.0 && t + x < next <= t
    ensures next - next * (x / t) >= t
  {
    var e := x / t;
    assert e > 0.0;
    assert x == e * t;
    if e >= 1.0 {
      MulNonnegMonotone(1.0, e, -next);
      assert next * e <= next;
    } else {
      assert next - next * e == next * (1.0 - e);
      MulNonnegMonotone(t + x, next, 1.0 - e);
      assert (t + x) * (1.0 - e) == t * (1.0 + e) * (1.0 - e);
      assert t * (1.0 + e) * (1.0 - e) == t - t * (e * e);
      assert e * e >= 0.0;
      MulNonnegMonotone(0.0, e * e, -t);
    }
  }

  /**
   * With the acceleration pointing at the cap, one step never overshoots: the
   * result lies between the current value and `terminal`.
   */
  lemma ApproachVelocityMovesTowardTerminal(current: real, acceleration: real, deltaTime: real, terminal: real)
    requires Towards(acceleration, terminal) && deltaTime >= 0.0
    ensures Min(current, terminal) <= ApproachVelocity(current, acceleration, deltaTime, terminal) <= Max(current, terminal)
  {
    var next := current + acceleration * deltaTime;
    var x := acceleration * deltaTime;
    if terminal > 0.0 {
      MulNonnegMonotone(0.0, acceleration, deltaTime);
      assert x >= 0.0;
      if !NotPassed(next, terminal) && !Beyond(current, terminal) {
        assert x > 0.0;
        DampingRewrite(acceleration, terminal, next, deltaTime);
        DampedAtMostCap(terminal, x, next);
      }
    } else {
      MulNonnegMonotone(acceleration, 0.0, deltaTime);
      assert x <= 0.0;
      if !NotPassed(next, terminal) && !Beyond(current, terminal) {
        assert x < 0.0;
        DampingRewrite(acceleration, terminal, next, deltaTime);
        DampedAtLeastCap(terminal, x, next);
      }
    }
  }

  /** Pushing at the cap while already at the cap keeps the value at the cap. */
  lemma ApproachVelocityTerminalIsFixedPoint(acceleration: real, deltaTime: real, terminal: real)
    requires Towards(acceleration, terminal) && deltaTime >= 0.0
    ensures ApproachVelocity(terminal, acceleration, deltaTime, terminal) == terminal
  {
    ApproachVelocityMovesTowardTerminal(terminal, acceleration, deltaTime, terminal);
  }

  /**
   * Once a step has landed at or beyond the cap, the next step with an
   * acceleration that drives through the cap returns exactly the cap.
   */
  lemma ApproachVelocitySettlesAfterCrossing(v: real, acceleration: real, deltaTime: real, terminal: real)
    requires (terminal > 0.0 && acceleration > 0.0 && v >= terminal) || (terminal < 0.0 && acceleration < 0.0 && v <= terminal)
    requires deltaTime > 0.0
    ensures ApproachVelocity(v, acceleration, deltaTime, terminal) == terminal
  {
    if terminal > 0.0 {
      assert acceleration * deltaTime > 0.0;
      if v == terminal { ApproachVelocityTerminalIsFixedPoint(acceleration, deltaTime, terminal); }
    } else {
      assert acceleration * deltaTime < 0.0 by { MulNonnegMonotone(acceleration, 0.0, deltaTime); assert acceleration * deltaTime != 0.0; }
    }
  }

  /**
   * Without acceleration a value on the near side of the cap is unchanged, and a
   * value beyond the cap is brought back to the cap.
   */
  lemma ApproachVelocityWithoutAcceleration(current: real, deltaTime: real, terminal: real)
    ensures !Beyond(current, terminal) ==> ApproachVelocity(current, 0.0, deltaTime, terminal) == current
    ensures Beyond(current, terminal) ==> ApproachVelocity(current, 0.0, deltaTime, terminal) == terminal
  {
    assert current + 0.0 * deltaTime == current;
  }

  /** `n` consecutive steps with the same acceleration, time step and cap. */
  function ApproachVelocitySteps(n: nat, current: real, acceleration: real, deltaTime: real, terminal: real): real
  {
    if n == 0 then current
    else ApproachVelocitySteps(n - 1, ApproachVelocity(current, acceleration, deltaTime, terminal), acceleration, deltaTime, terminal)
  }

  /** Repeated steps from anywhere between rest and the cap never leave that interval. */
  lemma {:induction false} ApproachVelocityStepsStayWithinTerminal(n: nat, current: real, acceleration: real, deltaTime: real, terminal: real)
    requires Towards(acceleration, terminal) && deltaTime >= 0.0
    requires Min(0.0, terminal) <= current <= Max(0.0, terminal)
    ensures Min(0.0, terminal) <= ApproachVelocitySteps(n, current, acceleration, deltaTime, terminal) <= Max(0.0, terminal)
  {
    if n > 0 {
      ApproachVelocityMovesTowardTerminal(current, acceleration, deltaTime, terminal);
      ApproachVelocityStepsStayWithinTerminal(n - 1, ApproachVelocity(current, acceleration, deltaTime, terminal), acceleration, deltaTime, terminal);
    }
  }

  /**
   * A linear deceleration of `current` at the rate `maxSpeed / stopTime`;
   * a step that would change the sign stops at exactly zero.
   */
  function ApproachZero(current: real, deltaTime: real, maxSpeed: real, stopTime: real): real
    requires stopTime != 0.0
  {
    var deceleration := Signum(current) * maxSpeed / stopTime;
    var next := current - deceleration * deltaTime;
    if Signum(next) == Signum(current) then next else 0.0
  }

  lemma DecelerationRewrite(current: real, maxSpeed: real, stopTime: real, deltaTime: real)
    requires stopTime != 0.0
    ensures current >= 0.0 ==> current - (Signum(current) * maxSpeed / stopTime) * deltaTime == current - (maxSpeed / stopTime) * deltaTime
    ensures current < 0.0 ==> current - (Signum(current) * maxSpeed / stopTime) * deltaTime == current + (maxSpeed / stopTime) * deltaTime
  {
  }

  /** With a positive rate and time step, the result is the current value moved towards zero by `rate * deltaTime`, stopping at zero. */
  lemma ApproachZeroIsClampedDeceleration(current: real, deltaTime: real, maxSpeed: real, stopTime: real)
    requires stopTime != 0.0 && maxSpeed / stopTime > 0.0 && deltaTime >= 0.0
    ensures current >= 0.0 ==> ApproachZero(current, deltaTime, maxSpeed, stopTime) == Max(0.0, current - (maxSpeed / stopTime) * deltaTime)
    ensures current < 0.0 ==> ApproachZero(current, deltaTime, maxSpeed, stopTime) == Min(0.0, current + (maxSpeed / stopTime) * deltaTime)
  {
    DecelerationRewrite(current, maxSpeed, stopTime, deltaTime);
  }

  /** The deceleration never flips the sign and never increases the magnitude; within one step of rest it stops exactly. */
  lemma ApproachZeroNeverOvershoots(current: real, deltaTime: real, maxSpeed: real, stopTime: real)
    requires stopTime != 0.0 && maxSpeed / stopTime > 0.0 && deltaTime >= 0.0
    ensures current >= 0.0 ==> 0.0 <= ApproachZero(current, deltaTime, maxSpeed, stopTime) <= current
    ensures current < 0.0 ==> current <= ApproachZero(current, deltaTime, maxSpeed, stopTime) <= 0.0
    ensures -(maxSpeed / stopTime) * deltaTime <= current <= (maxSpeed / stopTime) * deltaTime ==>
              ApproachZero(current, deltaTime, maxSpeed, stopTime) == 0.0
  {
    MulNonnegMonotone(0.0, maxSpeed / stopTime, deltaTime);
    ApproachZeroIsClampedDeceleration(current, deltaTime, maxSpeed, stopTime);
  }

  /** `n` consecutive decelerations with the same parameters. */
  function ApproachZeroSteps(n: nat, current: real, deltaTime: real, maxSpeed: real, stopTime: real): real
    requires stopTime != 0.0
  {
    if n == 0 then current
    else ApproachZeroSteps(n - 1, ApproachZero(current, deltaTime, maxSpeed, stopTime), deltaTime, maxSpeed, stopTime)
  }

  /** From a non-negative speed, `n` decelerations remove `n * rate * deltaTime`, stopping at zero. */
  lemma {:induction false} ApproachZeroStepsLinear(n: nat, current: real, deltaTime: real, maxSpeed: real, stopTime: real)
    requires stopTime != 0.0 && maxSpeed / stopTime > 0.0 && deltaTime >= 0.0 && current >= 0.0
    ensures ApproachZeroSteps(n, current, deltaTime, maxSpeed, stopTime) == Max(0.0, current - (n as real) * ((maxSpeed / stopTime) * deltaTime))
  {
    var step := (maxSpeed / stopTime) * deltaTime;
    MulNonnegMonotone(0.0, maxSpeed / stopTime, deltaTime);
    if n > 0 {
      var next := ApproachZero(current, deltaTime, maxSpeed, stopTime);
      ApproachZeroIsClampedDeceleration(current, deltaTime, maxSpeed, stopTime);
      assert next == Max(0.0, current - step);
      ApproachZeroStepsLinear(n - 1, next, deltaTime, maxSpeed, stopTime);
      assert (n as real) * step == ((n - 1) as real) * step + step;
      MulNonnegMonotone(0.0, (n - 1) as real, step);
    }
  }

  /** Starting at the top speed, rest is reached exactly once `n * deltaTime` covers the stop time. */
  lemma ApproachZeroReachesRest(n: nat, deltaTime: real, maxSpeed: real, stopTime: real)
    requires maxSpeed > 0.0 && stopTime > 0.0 && deltaTime > 0.0
    requires (n as real) * deltaTime >= stopTime
    ensures ApproachZeroSteps(n, maxSpeed, deltaTime, maxSpeed, stopTime) == 0.0
  {
    var rate := maxSpeed / stopTime;
    assert rate > 0.0;
    ApproachZeroStepsLinear(n, maxSpeed, deltaTime, maxSpeed, stopTime);
    assert (n as real) * (rate * deltaTime) == rate * ((n as real) * deltaTime);
    MulNonnegMonotone(stopTime, (n as real) * deltaTime, rate);
    assert rate * stopTime == maxSpeed;
  }
}
