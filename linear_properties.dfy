/**
  What the planning functions of StepperMathLinear promise: the maximum-speed
  formula never overstates the true maximum, the speed check is exact, the
  planned pulses never come faster than the motor allows (for a reverse
  one-axis move only because its delay wraps to `2^32 - delay`), both axes of a
  diagonal share one transit time, and how a move and its reverse relate.
 */
module LinearProperties {
  import opened CArith
  import opened StepperDevice
  import opened StepperMathLinear

  // ---------------------------------------------------------------- maximum speed

  /**
    Lines 100-101: whatever the inputs, even when a product wraps, the computed
    maximum speed is at most the exact one, floor(distance_per_step * 10^6 / pulse_delay).
   */
  lemma MaxSpeedNeverExceedsExact(distancePerStep: ULong, pulseDelay: ULong)
    requires pulseDelay > 0
    ensures MaxSpeed(distancePerStep, pulseDelay) <= distancePerStep * 1_000_000 / pulseDelay
  {
    var d: int, p: int := distancePerStep, pulseDelay;
    var scaled := MulULong(d, 1000);
    var q := d * 1000 / p;
    DivMonotone(scaled, d * 1000, p);
    MulMonotone(scaled / p, q, 1000);
    QuotientBounds(d * 1000, p);
    assert (q * 1000) * p == (q * p) * 1000;
    LeDivOfMulLe(q * 1000, d * 1_000_000, p);
  }

  /** No intermediate value of line 111 exceeds the `unsigned long` range. */
  predicate StagedFits(distancePerStep: ULong, pulseDelay: ULong)
    requires pulseDelay > 0
  {
    && distancePerStep * 1000 < ULONG_MODULUS
    && (distancePerStep * 1000 / pulseDelay) * 1000 < ULONG_MODULUS
  }

  /**
    Lines 104-110: when nothing wraps, the staged computation is the exact
    integer formula and loses less than 1000 against the exact maximum speed.
   */
  lemma MaxSpeedStaged(distancePerStep: ULong, pulseDelay: ULong)
    requires pulseDelay > 0 && StagedFits(distancePerStep, pulseDelay)
    ensures MaxSpeed(distancePerStep, pulseDelay) == (distancePerStep * 1000 / pulseDelay) * 1000
    ensures distancePerStep * 1_000_000 / pulseDelay - 1000 < MaxSpeed(distancePerStep, pulseDelay)
    ensures MaxSpeed(distancePerStep, pulseDelay) <= distancePerStep * 1_000_000 / pulseDelay
  {
    var d: int, p: int := distancePerStep, pulseDelay;
    var q := d * 1000 / p;
    MaxSpeedNeverExceedsExact(d, p);
    QuotientBounds(d * 1000, p);
    assert d * 1_000_000 < ((q + 1) * 1000) * p by {
      assert ((q + 1) * 1000) * p == ((q + 1) * p) * 1000;
    }
    DivLtOfLtMul(d * 1_000_000, (q + 1) * 1000, p);
  }

  /**
    Lines 94-95: with the usual pulse delay of at least 1000 microseconds, a
    step length whose thousandfold fits 32 bits keeps every intermediate in range.
   */
  lemma StagedFitsForSlowPulses(distancePerStep: ULong, pulseDelay: ULong)
    requires distancePerStep * 1000 < ULONG_MODULUS && pulseDelay >= 1000
    ensures StagedFits(distancePerStep, pulseDelay)
  {
    var d: int, p: int := distancePerStep, pulseDelay;
    var q := d * 1000 / p;
    QuotientBounds(d * 1000, p);
    MulMonotone(1000, p, q);
    assert q <= d;
  }

  /** A fitting first product is not enough: with a 1-microsecond pulse delay the
      second product wraps, and the result falls far below the exact maximum. */
  lemma MaxSpeedWrapExample()
    ensures 5000 * 1000 < ULONG_MODULUS
    ensures MaxSpeed(5000, 1) == 705_032_704
    ensures MaxSpeed(5000, 1) < 5000 * 1_000_000 - 1000
  {
  }

  /** Lines 36-40 and 106-110 */
  lemma MaxSpeedExample()
    ensures MaxSpeed(7500, 1000) == 7_500_000
  {
  }

  // ---------------------------------------------------------------- steps

  /** Reversing a move reverses its step count and keeps its magnitude. */
  lemma StepCountNegation(dl: Long, distancePerStep: ULong)
    requires distancePerStep > 0 && dl != LONG_MIN
    ensures StepCount(-dl, distancePerStep) == -StepCount(dl, distancePerStep)
    ensures Abs(StepCount(-dl, distancePerStep)) == Abs(StepCount(dl, distancePerStep))
  {
    TruncDivNegation(dl, distancePerStep);
  }

  lemma TruncDivNegation(a: int, b: int)
    requires b > 0
    ensures TruncDiv(-a, b) == -TruncDiv(a, b)
  {
    assert Abs(-a) == Abs(a);
  }

  /** Starting at `pos` and making `steps` steps of length `d` towards `pos + dl`
      stops short of the target by less than one step, never past it. */
  lemma WithinOneStep(pos: int, dl: int, d: int, steps: int)
    requires d > 0
    requires Abs(steps) * d <= Abs(dl) < (Abs(steps) + 1) * d
    requires dl >= 0 ==> steps >= 0
    requires dl <= 0 ==> steps <= 0
    ensures Abs(pos + dl - (pos + steps * d)) < d
    ensures pos <= pos + steps * d <= pos + dl || pos + dl <= pos + steps * d <= pos
  {
    if steps < 0 {
      assert Abs(steps) * d == -(steps * d);
    }
  }

  // ---------------------------------------------------------------- one axis

  /**
    Lines 113-119 and 136: the call fails with TOO_FAST exactly when a nonzero
    speed above the axis maximum is requested (a request of 0 never fails), and
    then it prepares no steps.
   */
  lemma LineTooFastIff(axis: Axis, dl: Long, spd: ULong)
    requires axis.Valid()
    ensures Line(axis, dl, spd).TooFast? <==>
      && spd != 0
      && spd > MaxSpeed(axis.distancePerStep, axis.pulseDelay)
      && StepCount(dl, axis.distancePerStep) != LONG_MIN
    ensures Line(axis, dl, spd).TooFast? ==> Emitted(Line(axis, dl, spd)) == []
  {
  }

  /**
    Lines 113-138: a nonzero request within the maximum is used unchanged; when
    the call completes, it prepares `steps` with the delay `dt / mod_steps`
    computed from that very speed.
   */
  lemma LineUsesRequestedSpeed(axis: Axis, dl: Long, spd: ULong)
    requires axis.Valid()
    requires 0 < spd <= MaxSpeed(axis.distancePerStep, axis.pulseDelay)
    requires !Line(axis, dl, spd).Undefined?
    ensures Line(axis, dl, spd).Prepared?
    ensures Line(axis, dl, spd).plan.steps == StepCount(dl, axis.distancePerStep)
    ensures IsLong(TransitTime(dl, spd)) && Abs(StepCount(dl, axis.distancePerStep)) > 0
    ensures Line(axis, dl, spd).plan.stepDelay
         == StepDelay(TransitTime(dl, spd), Abs(StepCount(dl, axis.distancePerStep)))
  {
  }

  /**
    A prepared move is never shorter than one step: a displacement below
    `distance_per_step` leads to the division by zero of line 124, or fails earlier.
   */
  lemma LineShortMove(axis: Axis, dl: Long, spd: ULong)
    requires axis.Valid() && Abs(dl) < axis.distancePerStep
    ensures !Line(axis, dl, spd).Prepared?
    ensures Line(axis, dl, spd).Undefined? ==>
              Line(axis, dl, spd).fault in {ZeroSpeed, TransitTimeOutOfRange, DivisionByZero}
  {
  }

  /**
    A prepared forward move: it makes the whole number of steps in `dl`, its
    `steps` pauses add up to the transit time `dt = dl * 10^6 / speed`
    (truncated) less than one pause, and each pause is at least the motor's
    `pulse_delay`.
   */
  lemma LineForwardPlan(axis: Axis, dl: Long, spd: ULong)
    requires axis.Valid() && dl >= 0 && Line(axis, dl, spd).Prepared?
    ensures LineSpeed(axis, spd).Some? && LineSpeed(axis, spd).value > 0
    ensures var t, dt := Line(axis, dl, spd).plan, TransitTime(dl, LineSpeed(axis, spd).value);
      && t.steps > 0
      && t.steps * axis.distancePerStep <= dl < (t.steps + 1) * axis.distancePerStep
      && 0 <= dt * LineSpeed(axis, spd).value <= dl * 1_000_000 < (dt + 1) * LineSpeed(axis, spd).value
      && t.stepDelay * t.steps <= dt < (t.stepDelay + 1) * t.steps
      && t.stepDelay >= axis.pulseDelay
  {
    LinePreparedParts(axis, dl, spd);
    ForwardPace(axis, dl, LineSpeed(axis, spd).value);
  }

  /** The arithmetic of a forward move at a speed within the axis's maximum. */
  lemma ForwardPace(axis: Axis, dl: Long, speed: ULong)
    requires axis.Valid() && dl >= 0
    requires 0 < speed <= MaxSpeed(axis.distancePerStep, axis.pulseDelay)
    requires StepCount(dl, axis.distancePerStep) != 0 && IsLong(TransitTime(dl, speed))
    ensures var steps, dt := StepCount(dl, axis.distancePerStep), TransitTime(dl, speed);
      && var delay := StepDelay(dt, steps);
      && steps > 0
      && steps * axis.distancePerStep <= dl < (steps + 1) * axis.distancePerStep
      && 0 <= dt * speed <= dl * 1_000_000 < (dt + 1) * speed
      && delay * steps <= dt < (delay + 1) * steps
      && delay >= axis.pulseDelay
  {
    var steps := StepCount(dl, axis.distancePerStep);
    var dt := TransitTime(dl, speed);
    TruncDivBounds(dl, axis.distancePerStep);
    TruncDivBounds(dl * 1_000_000, speed);
    TruncDivBounds(dt, steps);
    assert StepDelay(dt, steps) == TruncDiv(dt, steps);
    MaxSpeedNeverExceedsExact(axis.distancePerStep, axis.pulseDelay);
    PaceRespectsPulseDelay(dl, speed, steps, axis.distancePerStep, axis.pulseDelay);
  }

  /**
    Pacing `modSteps` steps of length `d` over at least their own length, at a
    speed no greater than `d * 10^6 / p`, never pauses less than `p` between pulses.
   */
  lemma PaceRespectsPulseDelay(len: int, speed: int, modSteps: int, d: int, p: int)
    requires speed > 0 && modSteps > 0 && p > 0 && d > 0
    requires modSteps * d <= len
    requires speed <= d * 1_000_000 / p
    ensures p <= TruncDiv(TruncDiv(len * 1_000_000, speed), modSteps)
  {
    QuotientBounds(d * 1_000_000, p);
    MulMonotone(speed, d * 1_000_000 / p, p);
    assert speed * p <= d * 1_000_000;
    MulMonotone(speed * p, d * 1_000_000, modSteps);
    assert (modSteps * p) * speed == (speed * p) * modSteps;
    assert (d * 1_000_000) * modSteps == (modSteps * d) * 1_000_000;
    assert (modSteps * p) * speed <= len * 1_000_000;
    LeDivOfMulLe(modSteps * p, len * 1_000_000, speed);
    var dt := len * 1_000_000 / speed;
    assert TruncDiv(len * 1_000_000, speed) == dt;
    LeDivOfMulLe(p, dt, modSteps);
    assert TruncDiv(dt, modSteps) == dt / modSteps;
  }

  /** What a prepared one-axis outcome is made of */
  lemma LinePreparedParts(axis: Axis, dl: Long, spd: ULong)
    requires axis.Valid() && Line(axis, dl, spd).Prepared?
    ensures StepCount(dl, axis.distancePerStep) != LONG_MIN
    ensures Abs(StepCount(dl, axis.distancePerStep)) > 0
    ensures LineSpeed(axis, spd).Some? && LineSpeed(axis, spd).value > 0
    ensures IsLong(TransitTime(dl, LineSpeed(axis, spd).value))
    ensures Line(axis, dl, spd).plan == StepTask(StepCount(dl, axis.distancePerStep),
              StepDelay(TransitTime(dl, LineSpeed(axis, spd).value), Abs(StepCount(dl, axis.distancePerStep))))
  {
  }

  /** The one-axis outcome once its parts are known */
  lemma LineFromParts(axis: Axis, dl: Long, spd: ULong, speed: ULong)
    requires axis.Valid()
    requires StepCount(dl, axis.distancePerStep) != LONG_MIN
    requires Abs(StepCount(dl, axis.distancePerStep)) > 0
    requires LineSpeed(axis, spd) == Some(speed) && speed > 0
    requires IsLong(TransitTime(dl, speed))
    ensures Line(axis, dl, spd) == Prepared(StepTask(StepCount(dl, axis.distancePerStep),
              StepDelay(TransitTime(dl, speed), Abs(StepCount(dl, axis.distancePerStep)))))
  {
  }

  /**
    Line 124 as written: the reverse of a prepared forward move negates the step
    count, while its delay is the negative quotient stored into an
    `unsigned long`, i.e. 2^32 minus the forward delay.
   */
  lemma LineReversal(axis: Axis, dl: Long, spd: ULong)
    requires axis.Valid() && dl >= 0 && Line(axis, dl, spd).Prepared?
    ensures Line(axis, -dl, spd).Prepared?
    ensures Line(axis, -dl, spd).plan.steps == -Line(axis, dl, spd).plan.steps
    ensures Line(axis, -dl, spd).plan.stepDelay == ULONG_MODULUS - Line(axis, dl, spd).plan.stepDelay
  {
    var d := axis.distancePerStep;
    LinePreparedParts(axis, dl, spd);
    LineForwardPlan(axis, dl, spd);
    var steps := StepCount(dl, d);
    var speed := LineSpeed(axis, spd).value;
    StepCountNegation(dl, d);
    TransitTimeNegation(dl, speed);
    ReversedDelay(TransitTime(dl, speed), steps);
    LineFromParts(axis, -dl, spd, speed);
  }

  lemma TransitTimeNegation(len: int, speed: ULong)
    requires speed > 0
    ensures TransitTime(-len, speed) == -TransitTime(len, speed)
  {
    TruncDivNegation(len * 1_000_000, speed);
    assert (-len) * 1_000_000 == -(len * 1_000_000);
  }

  /** A positive quotient, negated and stored into an `unsigned long` */
  lemma ReversedDelay(dt: Long, modSteps: int)
    requires 0 <= dt && modSteps > 0 && StepDelay(dt, modSteps) > 0
    ensures StepDelay(-dt, modSteps) == ULONG_MODULUS - StepDelay(dt, modSteps)
  {
    TruncDivNegation(dt, modSteps);
  }

  /**
    The delay a reverse one-axis move is given differs from its forward
    counterpart's, and lies above LONG_MAX: delays are not direction-independent.
   */
  lemma NegativeMoveDelayWraps(axis: Axis, dl: Long, spd: ULong)
    requires axis.Valid() && dl >= 0 && Line(axis, dl, spd).Prepared?
    ensures Line(axis, -dl, spd).Prepared?
    ensures Line(axis, -dl, spd).plan.stepDelay != Line(axis, dl, spd).plan.stepDelay
    ensures Line(axis, -dl, spd).plan.stepDelay > LONG_MAX
  {
    LineForwardPlan(axis, dl, spd);
    LineReversal(axis, dl, spd);
  }

  /** A reverse one-axis move, wrapped delay and all, never pauses less than `pulse_delay`. */
  lemma LineReversePace(axis: Axis, dl: Long, spd: ULong)
    requires axis.Valid() && dl >= 0 && Line(axis, dl, spd).Prepared?
    ensures Line(axis, -dl, spd).Prepared?
    ensures Line(axis, -dl, spd).plan.stepDelay >= axis.pulseDelay
  {
    LineForwardPlan(axis, dl, spd);
    NegativeMoveDelayWraps(axis, dl, spd);
  }

  /** The per-step delay the code evidently means: the magnitude of the transit
      time spread over the steps, whatever the direction. */
  function IntendedStepDelay(dt: Long, modSteps: int): (r: ULong)
    requires modSteps > 0
    ensures r * modSteps <= Abs(dt) < (r + 1) * modSteps
  {
    TruncDivBounds(Abs(dt), modSteps);
    TruncDiv(Abs(dt), modSteps)
  }

  /**
    With the intended delay, a reverse move paces its steps exactly as its
    forward counterpart does, and forward moves keep the delay the code gives them.
   */
  lemma IntendedDelayIsDirectionFree(axis: Axis, dl: Long, spd: ULong)
    requires axis.Valid() && dl >= 0 && Line(axis, dl, spd).Prepared?
    ensures LineSpeed(axis, spd).Some? && LineSpeed(axis, spd).value > 0
    ensures IsLong(TransitTime(-dl, LineSpeed(axis, spd).value))
    ensures var t, speed := Line(axis, dl, spd).plan, LineSpeed(axis, spd).value;
      && IntendedStepDelay(TransitTime(-dl, speed), Abs(t.steps)) == t.stepDelay
      && IntendedStepDelay(TransitTime(dl, speed), Abs(t.steps)) == t.stepDelay
  {
    var speed := LineSpeed(axis, spd).value;
    LineForwardPlan(axis, dl, spd);
    TruncDivNegation(dl * 1_000_000, speed);
    var dt := TransitTime(dl, speed);
    assert TransitTime(-dl, speed) == -dt;
    assert Abs(-dt) == dt;
  }

  /** `prepare_line` with the delay of line 124 taken from `|dt|`, as intended */
  function IntendedLine(axis: Axis, dl: Long, spd: ULong): (o: Outcome<StepTask>)
    requires axis.Valid()
  {
    match Line(axis, dl, spd)
    case Prepared(t) =>
      LinePreparedParts(axis, dl, spd);
      Prepared(StepTask(t.steps, IntendedStepDelay(TransitTime(dl, LineSpeed(axis, spd).value), Abs(t.steps))))
    case TooFast => TooFast
    case Undefined(f) => Undefined(f)
  }

  /**
    The corrected planner agrees with the code on every forward move, and the
    reverse of a prepared forward move negates its steps and keeps its delay.
   */
  lemma IntendedLineReversal(axis: Axis, dl: Long, spd: ULong)
    requires axis.Valid() && dl >= 0
    ensures IntendedLine(axis, dl, spd) == Line(axis, dl, spd)
    ensures IntendedLine(axis, dl, spd).Prepared? ==>
      && IntendedLine(axis, -dl, spd).Prepared?
      && IntendedLine(axis, -dl, spd).plan.steps == -IntendedLine(axis, dl, spd).plan.steps
      && IntendedLine(axis, -dl, spd).plan.stepDelay == IntendedLine(axis, dl, spd).plan.stepDelay
  {
    if Line(axis, dl, spd).Prepared? {
      LinePreparedParts(axis, dl, spd);
      IntendedDelayIsDirectionFree(axis, dl, spd);
      LineReversal(axis, dl, spd);
      StepCountNegation(dl, axis.distancePerStep);
      assert IntendedLine(axis, dl, spd).plan == Line(axis, dl, spd).plan;
    }
  }

  /** The example move of one axis, in nanometres: 10 um at 1 um/s with 1 um steps, and its reverse. */
  lemma LineExample()
    ensures TransitTime(10000, 1000) == 10_000_000
    ensures Line(Axis(1000, 1000), 10000, 1000) == Prepared(StepTask(10, 1_000_000))
    ensures Line(Axis(1000, 1000), -10000, 1000) == Prepared(StepTask(-10, 4_293_967_296))
  {
  }

  /** Lines 155-159: an absolute move ends at most one step short of its target,
      on the near side. */
  lemma LineAbsLandsNearTarget(axis: Axis, currentPos: Long, cvalue: Long, spd: ULong)
    requires axis.Valid() && LineAbs(axis, currentPos, cvalue, spd).Prepared?
    ensures LineAbs(axis, currentPos, cvalue, spd) == Line(axis, cvalue - currentPos, spd)
    ensures var landing := currentPos + LineAbs(axis, currentPos, cvalue, spd).plan.steps * axis.distancePerStep;
      && Abs(cvalue - landing) < axis.distancePerStep
      && (currentPos <= landing <= cvalue || cvalue <= landing <= currentPos)
  {
    var dl := cvalue - currentPos;
    TruncDivBounds(dl, axis.distancePerStep);
    WithinOneStep(currentPos, dl, axis.distancePerStep, StepCount(dl, axis.distancePerStep));
  }

  // ---------------------------------------------------------------- two axes

  /**
    Lines 224-234 and 262-263: a diagonal fails with TOO_FAST exactly when a
    nonzero speed above the slower axis's maximum is requested, and then
    prepares no steps on either axis.
   */
  lemma Line2DTooFastIff(axis1: Axis, axis2: Axis, dl1: Long, dl2: Long, spd: ULong)
    requires axis1.Valid() && axis2.Valid()
    ensures Line2D(axis1, axis2, dl1, dl2, spd).TooFast? <==>
      && spd != 0
      && (spd > MaxSpeed(axis1.distancePerStep, axis1.pulseDelay)
          || spd > MaxSpeed(axis2.distancePerStep, axis2.pulseDelay))
      && StepCount(dl1, axis1.distancePerStep) != LONG_MIN
      && StepCount(dl2, axis2.distancePerStep) != LONG_MIN
    ensures Line2D(axis1, axis2, dl1, dl2, spd).TooFast? ==>
      EmittedFirst(Line2D(axis1, axis2, dl1, dl2, spd)) == [] &&
      EmittedSecond(Line2D(axis1, axis2, dl1, dl2, spd)) == []
  {
  }

  /** What a prepared diagonal is made of */
  lemma Line2DPreparedParts(axis1: Axis, axis2: Axis, dl1: Long, dl2: Long, spd: ULong)
    requires axis1.Valid() && axis2.Valid() && Line2D(axis1, axis2, dl1, dl2, spd).Prepared?
    ensures StepCount(dl1, axis1.distancePerStep) != LONG_MIN
    ensures StepCount(dl2, axis2.distancePerStep) != LONG_MIN
    ensures ResolveSpeed(spd, EffectiveMax(axis1, axis2)).Some?
    ensures Line2D(axis1, axis2, dl1, dl2, spd)
         == Diagonal(StepCount(dl1, axis1.distancePerStep), StepCount(dl2, axis2.distancePerStep),
                     PathLength(dl1, dl2), ResolveSpeed(spd, EffectiveMax(axis1, axis2)).value)
  {
  }

  /** A prepared diagonal timing: both axes are paced over the same transit time. */
  lemma DiagonalTiming(steps1: Long, steps2: Long, len: nat, speed: ULong)
    requires steps1 != LONG_MIN && steps2 != LONG_MIN
    requires Diagonal(steps1, steps2, len, speed).Prepared?
    ensures speed > 0 && IsLong(len) && steps1 != 0 && steps2 != 0
    ensures var dt := TransitTime(len, speed);
      && 0 <= dt * speed <= len * 1_000_000 < (dt + 1) * speed
      && Diagonal(steps1, steps2, len, speed).plan.0.steps == steps1
      && Diagonal(steps1, steps2, len, speed).plan.1.steps == steps2
      && Diagonal(steps1, steps2, len, speed).plan.0.stepDelay == TruncDiv(dt, Abs(steps1))
      && Diagonal(steps1, steps2, len, speed).plan.1.stepDelay == TruncDiv(dt, Abs(steps2))
  {
    var dt := TransitTime(len, speed);
    TruncDivBounds(len * 1_000_000, speed);
    assert StepDelay(dt, Abs(steps1)) == TruncDiv(dt, Abs(steps1));
    assert StepDelay(dt, Abs(steps2)) == TruncDiv(dt, Abs(steps2));
  }

  /**
    Lines 236-252: a prepared diagonal paces both axes over one shared transit
    time `dt`, the time to cover the (integer) hypotenuse at the resolved speed;
    each axis makes the whole number of steps of its own displacement, and
    neither pauses less than its motor's `pulse_delay`.
   */
  lemma Line2DSharedTime(axis1: Axis, axis2: Axis, dl1: Long, dl2: Long, spd: ULong)
    requires axis1.Valid() && axis2.Valid() && Line2D(axis1, axis2, dl1, dl2, spd).Prepared?
    ensures ResolveSpeed(spd, EffectiveMax(axis1, axis2)).Some?
    ensures var speed := ResolveSpeed(spd, EffectiveMax(axis1, axis2)).value;
      && speed > 0
      && (spd != 0 ==> speed == spd)
      && var len := PathLength(dl1, dl2);
      && len * len <= dl1 * dl1 + dl2 * dl2 < (len + 1) * (len + 1)
      && var dt := TransitTime(len, speed);
      && 0 <= dt * speed <= len * 1_000_000 < (dt + 1) * speed
      && var (t1, t2) := Line2D(axis1, axis2, dl1, dl2, spd).plan;
      && t1.steps == StepCount(dl1, axis1.distancePerStep)
      && t2.steps == StepCount(dl2, axis2.distancePerStep)
      && t1.stepDelay * Abs(t1.steps) <= dt < (t1.stepDelay + 1) * Abs(t1.steps)
      && t2.stepDelay * Abs(t2.steps) <= dt < (t2.stepDelay + 1) * Abs(t2.steps)
      && t1.stepDelay >= axis1.pulseDelay
      && t2.stepDelay >= axis2.pulseDelay
  {
    Line2DPreparedParts(axis1, axis2, dl1, dl2, spd);
    var speed := ResolveSpeed(spd, EffectiveMax(axis1, axis2)).value;
    var len := PathLength(dl1, dl2);
    PathLengthBounds(dl1, dl2);
    DiagonalPace(axis1, axis2, dl1, dl2, len, speed);
  }

  /** The path length is the integer hypotenuse, no shorter than either leg. */
  lemma PathLengthBounds(dl1: Long, dl2: Long)
    ensures var len := PathLength(dl1, dl2);
      && len * len <= dl1 * dl1 + dl2 * dl2 < (len + 1) * (len + 1)
      && Abs(dl1) <= len && Abs(dl2) <= len
  {
    var n := dl1 * dl1 + dl2 * dl2;
    ISqrtBounds(n);
    LegsBelowRoot(dl1, dl2, ISqrt(n));
  }

  /** The pacing of a prepared diagonal, given a path at least as long as each
      displacement and a speed within both axes' maxima. */
  lemma DiagonalPace(axis1: Axis, axis2: Axis, dl1: Long, dl2: Long, len: nat, speed: ULong)
    requires axis1.Valid() && axis2.Valid()
    requires StepCount(dl1, axis1.distancePerStep) != LONG_MIN
    requires StepCount(dl2, axis2.distancePerStep) != LONG_MIN
    requires Abs(dl1) <= len && Abs(dl2) <= len && speed <= EffectiveMax(axis1, axis2)
    requires Diagonal(StepCount(dl1, axis1.distancePerStep), StepCount(dl2, axis2.distancePerStep), len, speed).Prepared?
    ensures speed > 0
    ensures var dt := TransitTime(len, speed);
      && 0 <= dt * speed <= len * 1_000_000 < (dt + 1) * speed
      && var (t1, t2) := Diagonal(StepCount(dl1, axis1.distancePerStep), StepCount(dl2, axis2.distancePerStep), len, speed).plan;
      && t1.steps == StepCount(dl1, axis1.distancePerStep)
      && t2.steps == StepCount(dl2, axis2.distancePerStep)
      && t1.stepDelay * Abs(t1.steps) <= dt < (t1.stepDelay + 1) * Abs(t1.steps)
      && t2.stepDelay * Abs(t2.steps) <= dt < (t2.stepDelay + 1) * Abs(t2.steps)
      && t1.stepDelay >= axis1.pulseDelay
      && t2.stepDelay >= axis2.pulseDelay
  {
    var s1 := StepCount(dl1, axis1.distancePerStep);
    var s2 := StepCount(dl2, axis2.distancePerStep);
    DiagonalTiming(s1, s2, len, speed);
    var dt := TransitTime(len, speed);
    TruncDivBounds(dt, Abs(s1));
    TruncDivBounds(dt, Abs(s2));
    AxisPace(axis1, dl1, len, speed);
    AxisPace(axis2, dl2, len, speed);
  }

  lemma AxisPace(axis: Axis, dl: Long, len: nat, speed: ULong)
    requires axis.Valid() && speed > 0
    requires Abs(dl) <= len && StepCount(dl, axis.distancePerStep) != 0
    requires speed <= MaxSpeed(axis.distancePerStep, axis.pulseDelay)
    ensures axis.pulseDelay <= TruncDiv(TransitTime(len, speed), Abs(StepCount(dl, axis.distancePerStep)))
  {
    TruncDivBounds(dl, axis.distancePerStep);
    assert Abs(StepCount(dl, axis.distancePerStep)) * axis.distancePerStep <= len;
    MaxSpeedNeverExceedsExact(axis.distancePerStep, axis.pulseDelay);
    PaceRespectsPulseDelay(len, speed, Abs(StepCount(dl, axis.distancePerStep)),
                           axis.distancePerStep, axis.pulseDelay);
  }

  function Swapped(o: Outcome<(StepTask, StepTask)>): (s: Outcome<(StepTask, StepTask)>) {
    match o
    case Prepared((t1, t2)) => Prepared((t2, t1))
    case TooFast => TooFast
    case Undefined(f) => Undefined(f)
  }

  /** Exchanging the two axes of a diagonal exchanges their tasks and changes nothing else. */
  lemma Line2DAxisSwap(axis1: Axis, axis2: Axis, dl1: Long, dl2: Long, spd: ULong)
    requires axis1.Valid() && axis2.Valid()
    ensures Line2D(axis2, axis1, dl2, dl1, spd) == Swapped(Line2D(axis1, axis2, dl1, dl2, spd))
  {
    var s1 := StepCount(dl1, axis1.distancePerStep);
    var s2 := StepCount(dl2, axis2.distancePerStep);
    if s1 != LONG_MIN && s2 != LONG_MIN {
      assert EffectiveMax(axis2, axis1) == EffectiveMax(axis1, axis2);
      assert PathLength(dl2, dl1) == PathLength(dl1, dl2) by {
        assert dl2 * dl2 + dl1 * dl1 == dl1 * dl1 + dl2 * dl2;
      }
      match ResolveSpeed(spd, EffectiveMax(axis1, axis2))
      case None =>
      case Some(speed) => DiagonalSwap(s1, s2, PathLength(dl1, dl2), speed);
    }
  }

  lemma DiagonalSwap(steps1: Long, steps2: Long, len: nat, speed: ULong)
    requires steps1 != LONG_MIN && steps2 != LONG_MIN
    ensures Diagonal(steps2, steps1, len, speed) == Swapped(Diagonal(steps1, steps2, len, speed))
  {
  }

  function MirroredFirst(o: Outcome<(StepTask, StepTask)>): (m: Outcome<(StepTask, StepTask)>)
    requires o.Prepared? ==> o.plan.0.steps != LONG_MIN
  {
    match o
    case Prepared((t1, t2)) => Prepared((StepTask(-t1.steps, t1.stepDelay), t2))
    case TooFast => TooFast
    case Undefined(f) => Undefined(f)
  }

  /**
    Line 237: on a diagonal the transit time comes from a length that is never
    negative, so reversing one axis reverses its steps and leaves every delay
    as it was; unlike a one-axis move, no delay wraps.
   */
  lemma Line2DReflection(axis1: Axis, axis2: Axis, dl1: Long, dl2: Long, spd: ULong)
    requires axis1.Valid() && axis2.Valid() && dl1 != LONG_MIN
    ensures Line2D(axis1, axis2, dl1, dl2, spd).Prepared? ==> Line2D(axis1, axis2, dl1, dl2, spd).plan.0.steps != LONG_MIN
    ensures Line2D(axis1, axis2, -dl1, dl2, spd) == MirroredFirst(Line2D(axis1, axis2, dl1, dl2, spd))
  {
    var s1 := StepCount(dl1, axis1.distancePerStep);
    var s2 := StepCount(dl2, axis2.distancePerStep);
    StepCountNegation(dl1, axis1.distancePerStep);
    if s1 != LONG_MIN && s2 != LONG_MIN {
      assert PathLength(-dl1, dl2) == PathLength(dl1, dl2) by {
        assert (-dl1) * (-dl1) == dl1 * dl1;
      }
      match ResolveSpeed(spd, EffectiveMax(axis1, axis2))
      case None =>
      case Some(speed) => DiagonalMirror(s1, s2, PathLength(dl1, dl2), speed);
    }
  }

  lemma DiagonalMirror(steps1: Long, steps2: Long, len: nat, speed: ULong)
    requires steps1 != LONG_MIN && steps2 != LONG_MIN
    ensures Diagonal(-steps1, steps2, len, speed) == MirroredFirst(Diagonal(steps1, steps2, len, speed))
  {
  }

  /** The example diagonal, in nanometres: 3 um by 4 um at the maximum speed of two equal axes. */
  lemma Line2DExample()
    ensures EffectiveMax(Axis(1000, 1000), Axis(1000, 1000)) == 1_000_000
    ensures PathLength(3000, 4000) == 5000
    ensures Line2D(Axis(1000, 1000), Axis(1000, 1000), 3000, 4000, 0)
         == Prepared((StepTask(3, 1666), StepTask(4, 1250)))
    ensures TransitTime(5000, 1_000_000) == 5000
  {
    assert PathLength(3000, 4000) == 5000 by {
      assert 3000 * 3000 + 4000 * 4000 == 5000 * 5000;
      ISqrtExact(5000);
    }
    assert MaxSpeed(1000, 1000) == 1_000_000 by {
      assert MulULong(1000, 1000) == 1_000_000;
      assert 1_000_000 / 1000 == 1000;
    }
    assert StepCount(3000, 1000) == 3 && StepCount(4000, 1000) == 4;
    assert Diagonal(3, 4, 5000, 1_000_000) == Prepared((StepTask(3, 1666), StepTask(4, 1250))) by {
      assert TransitTime(5000, 1_000_000) == 5000;
      assert StepDelay(5000, 3) == 1666 && StepDelay(5000, 4) == 1250;
    }
  }

  lemma ISqrtExact(r: nat)
    ensures ISqrt(r * r) == r
  {
    var s := ISqrt(r * r);
    ISqrtBounds(r * r);
    SquareBelow(r, s, r * r);
    SquareBelow(s, r, r * r);
  }

  /** Axes of differing step length: the diagonal is capped by the slower one. */
  lemma EffectiveMaxExample()
    ensures MaxSpeed(1000, 1000) == 1_000_000 && MaxSpeed(500, 1000) == 500_000
    ensures EffectiveMax(Axis(1000, 1000), Axis(500, 1000)) == 500_000
    ensures Line2D(Axis(1000, 1000), Axis(500, 1000), 3000, 4000, 600_000).TooFast?
  {
  }

  /** Lines 284-291: each axis of an absolute diagonal ends at most one step
      short of its target coordinate. */
  lemma Line2DAbsLandsNearTarget(axis1: Axis, axis2: Axis, currentPos1: Long, currentPos2: Long,
                                 cvalue1: Long, cvalue2: Long, spd: ULong)
    requires axis1.Valid() && axis2.Valid()
    requires Line2DAbs(axis1, axis2, currentPos1, currentPos2, cvalue1, cvalue2, spd).Prepared?
    ensures Line2DAbs(axis1, axis2, currentPos1, currentPos2, cvalue1, cvalue2, spd)
         == Line2D(axis1, axis2, cvalue1 - currentPos1, cvalue2 - currentPos2, spd)
    ensures var (t1, t2) := Line2DAbs(axis1, axis2, currentPos1, currentPos2, cvalue1, cvalue2, spd).plan;
      && Abs(cvalue1 - (currentPos1 + t1.steps * axis1.distancePerStep)) < axis1.distancePerStep
      && Abs(cvalue2 - (currentPos2 + t2.steps * axis2.distancePerStep)) < axis2.distancePerStep
  {
    var dl1, dl2 := cvalue1 - currentPos1, cvalue2 - currentPos2;
    assert Line2DAbs(axis1, axis2, currentPos1, currentPos2, cvalue1, cvalue2, spd)
        == Line2D(axis1, axis2, dl1, dl2, spd);
    Line2DPreparedParts(axis1, axis2, dl1, dl2, spd);
    var s1, s2 := StepCount(dl1, axis1.distancePerStep), StepCount(dl2, axis2.distancePerStep);
    DiagonalTiming(s1, s2, PathLength(dl1, dl2), ResolveSpeed(spd, EffectiveMax(axis1, axis2)).value);
    StepLanding(currentPos1, dl1, axis1.distancePerStep);
    StepLanding(currentPos2, dl2, axis2.distancePerStep);
  }

  /** Making `StepCount(dl, d)` steps from `pos` ends within one step of `pos + dl`. */
  lemma StepLanding(pos: Long, dl: Long, d: ULong)
    requires 0 < d
    ensures Abs(pos + dl - (pos + StepCount(dl, d) * d)) < d
  {
    TruncDivBounds(dl, d);
    WithinOneStep(pos, dl, d, StepCount(dl, d));
  }
}
