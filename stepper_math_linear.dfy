/**
  Straight-line moves for stepper motors (stepper_math/stepper_math_linear.cpp).

  The functions below say what each planning call computes: how many steps each
  axis makes, how long it pauses between pulses, or that the call fails with
  TOO_FAST. `Undefined` marks an input on which the C code reaches undefined
  behaviour (a division by zero, a signed overflow, or a floating-point value
  out of range of `long`); the methods, which follow the C code statement by
  statement, require that no such input is given.

  Floating point is not modelled: the transit time `dl / spd * 1000000` is taken
  as the exact quotient truncated toward zero, and the hypotenuse
  `sqrt(dl1^2 + dl2^2)` as the exact integer square root.
 */
module StepperMathLinear {
  import opened CArith
  import opened StepperDevice

  /** STEPPER_MATH_ERR_TOO_FAST */
  const ERR_TOO_FAST: int := 1

  datatype Option<T> = None | Some(value: T)

  /** What the undefined behaviour is, where the C code reaches it */
  datatype Fault =
    | StepsNegationOverflow  // `-steps` for steps == LONG_MIN
    | DisplacementOverflow   // `cvalue - current_pos` outside `long`
    | PathLengthOutOfRange   // the hypotenuse does not fit a `long`
    | ZeroSpeed              // the resolved speed is 0, so `dl / spd` is not finite
    | TransitTimeOutOfRange  // the transit time does not fit a `long`
    | DivisionByZero         // `dt / mod_steps` with mod_steps == 0

  /** The result of one planning call */
  datatype Outcome<T> = Prepared(plan: T) | TooFast | Undefined(fault: Fault)

  /** The value the C function returns */
  function ErrorCode<T>(o: Outcome<T>): (code: int)
    requires !o.Undefined?
    ensures code == 0 <==> o.Prepared?
    ensures code == ERR_TOO_FAST <==> o.TooFast?
  {
    if o.TooFast? then ERR_TOO_FAST else 0
  }

  // ---------------------------------------------------------------- speed

  /**
    Maximum speed of an axis in length units per second, lines 111, 224, 225:
    the step length times 1000, divided by the pulse delay, times 1000 again,
    each product in 32-bit `unsigned long` arithmetic.
   */
  function MaxSpeed(distancePerStep: ULong, pulseDelay: ULong): (maxSpd: ULong)
    requires pulseDelay > 0
  {
    MulULong(MulULong(distancePerStep, 1000) / pulseDelay, 1000)
  }

  /** The speed of the slower of two axes, line 227 */
  function EffectiveMaxSpeed(maxSpd1: ULong, maxSpd2: ULong): (r: ULong)
    ensures r <= maxSpd1 && r <= maxSpd2
    ensures r == maxSpd1 || r == maxSpd2
  {
    if maxSpd1 < maxSpd2 then maxSpd1 else maxSpd2
  }

  /**
    Lines 113-119 and 228-234: a requested speed of 0 asks for the maximum; any
    other request is used as it is, unless it exceeds the maximum, which is
    refused (None).
   */
  function ResolveSpeed(spd: ULong, maxSpd: ULong): (r: Option<ULong>)
    ensures r.None? <==> spd != 0 && spd > maxSpd
    ensures r.Some? ==> r.value <= maxSpd
    ensures r.Some? && spd != 0 ==> r.value == spd
    ensures spd == 0 ==> r == Some(maxSpd)
  {
    if spd == 0 then Some(maxSpd)
    else if spd > maxSpd then None
    else Some(spd)
  }

  // ---------------------------------------------------------------- steps and timing

  /** Lines 75 and 208-209: the signed number of whole steps in `dl`. */
  function StepCount(dl: Long, distancePerStep: ULong): (steps: Long)
    requires distancePerStep > 0
    ensures steps == 0 <==> Abs(dl) < distancePerStep
    ensures dl > 0 ==> steps >= 0
    ensures dl < 0 ==> steps <= 0
  {
    var q := TruncDiv(dl, distancePerStep);
    if q != 0 then MulMonotone(1, Abs(q), distancePerStep); q else q
  }

  /** Lines 121 and 240: the time to travel `len` at `speed`, in microseconds. */
  function TransitTime(len: int, speed: ULong): (dt: int)
    requires speed > 0
    ensures len >= 0 ==> dt >= 0
    ensures len <= 0 ==> dt <= 0
  {
    TruncDiv(len * 1_000_000, speed)
  }

  /** Lines 124 and 251-252: `dt / mod_steps` stored into an `unsigned long`. */
  function StepDelay(dt: Long, modSteps: int): (delay: ULong)
    requires modSteps > 0
    ensures dt >= 0 ==> delay <= dt
  {
    ToULong(TruncDiv(dt, modSteps))
  }

  /** Line 237: the length of the diagonal of a two-axis move. */
  function PathLength(dl1: Long, dl2: Long): (len: nat) {
    ISqrt(dl1 * dl1 + dl2 * dl2)
  }

  // ---------------------------------------------------------------- one axis

  /** Lines 111-119: the speed a one-axis call resolves its request to, or None when it refuses it */
  function LineSpeed(axis: Axis, spd: ULong): (speed: Option<ULong>)
    requires axis.Valid()
  {
    ResolveSpeed(spd, MaxSpeed(axis.distancePerStep, axis.pulseDelay))
  }

  /** `prepare_line(sm, dl, spd)`, lines 56-139 */
  function Line(axis: Axis, dl: Long, spd: ULong): (o: Outcome<StepTask>)
    requires axis.Valid()
  {
    var steps := StepCount(dl, axis.distancePerStep);
    if steps == LONG_MIN then Undefined(StepsNegationOverflow)
    else
      var modSteps := Abs(steps);
      match LineSpeed(axis, spd)
      case None => TooFast
      case Some(speed) =>
        if speed == 0 then Undefined(ZeroSpeed)
        else
          var dt := TransitTime(dl, speed);
          if !IsLong(dt) then Undefined(TransitTimeOutOfRange)
          else if modSteps == 0 then Undefined(DivisionByZero)
          else Prepared(StepTask(steps, StepDelay(dt, modSteps)))
  }

  /** `prepare_line_abs(sm, cvalue, spd)`, lines 155-159 */
  function LineAbs(axis: Axis, currentPos: Long, cvalue: Long, spd: ULong): (o: Outcome<StepTask>)
    requires axis.Valid()
  {
    if !IsLong(cvalue - currentPos) then Undefined(DisplacementOverflow)
    else Line(axis, cvalue - currentPos, spd)
  }

  /** The calls of `prepare_steps` a one-axis outcome stands for */
  function Emitted(o: Outcome<StepTask>): (tasks: seq<StepTask>)
    ensures |tasks| == if o.Prepared? then 1 else 0
  {
    if o.Prepared? then [o.plan] else []
  }

  // ---------------------------------------------------------------- two axes

  /** Lines 224-227: the maximum speed of a diagonal, that of the slower axis */
  function EffectiveMax(axis1: Axis, axis2: Axis): (maxSpd: ULong)
    requires axis1.Valid() && axis2.Valid()
  {
    EffectiveMaxSpeed(MaxSpeed(axis1.distancePerStep, axis1.pulseDelay),
                      MaxSpeed(axis2.distancePerStep, axis2.pulseDelay))
  }

  /** `prepare_line_2d(sm1, sm2, dl1, dl2, spd)`, lines 176-266 */
  function Line2D(axis1: Axis, axis2: Axis, dl1: Long, dl2: Long, spd: ULong): (o: Outcome<(StepTask, StepTask)>)
    requires axis1.Valid() && axis2.Valid()
  {
    var steps1 := StepCount(dl1, axis1.distancePerStep);
    var steps2 := StepCount(dl2, axis2.distancePerStep);
    if steps1 == LONG_MIN || steps2 == LONG_MIN then Undefined(StepsNegationOverflow)
    else
      match ResolveSpeed(spd, EffectiveMax(axis1, axis2))
      case None => TooFast
      case Some(speed) => Diagonal(steps1, steps2, PathLength(dl1, dl2), speed)
  }

  /** Lines 236-252: the timing of a diagonal of length `len` at `speed` */
  function Diagonal(steps1: Long, steps2: Long, len: nat, speed: ULong): (o: Outcome<(StepTask, StepTask)>)
    requires steps1 != LONG_MIN && steps2 != LONG_MIN
  {
    if !IsLong(len) then Undefined(PathLengthOutOfRange)
    else if speed == 0 then Undefined(ZeroSpeed)
    else
      var dt := TransitTime(len, speed);
      if !IsLong(dt) then Undefined(TransitTimeOutOfRange)
      else if steps1 == 0 || steps2 == 0 then Undefined(DivisionByZero)
      else Prepared((StepTask(steps1, StepDelay(dt, Abs(steps1))),
                     StepTask(steps2, StepDelay(dt, Abs(steps2)))))
  }

  /** `prepare_line_2d_abs(sm1, sm2, cvalue1, cvalue2, spd)`, lines 284-291 */
  function Line2DAbs(axis1: Axis, axis2: Axis, currentPos1: Long, currentPos2: Long,
                     cvalue1: Long, cvalue2: Long, spd: ULong): (o: Outcome<(StepTask, StepTask)>)
    requires axis1.Valid() && axis2.Valid()
  {
    if !IsLong(cvalue1 - currentPos1) || !IsLong(cvalue2 - currentPos2) then Undefined(DisplacementOverflow)
    else Line2D(axis1, axis2, cvalue1 - currentPos1, cvalue2 - currentPos2, spd)
  }

  /** The `prepare_steps` call a two-axis outcome makes for its first axis */
  function EmittedFirst(o: Outcome<(StepTask, StepTask)>): (tasks: seq<StepTask>)
    ensures |tasks| == if o.Prepared? then 1 else 0
  {
    if o.Prepared? then [o.plan.0] else []
  }

  /** The `prepare_steps` call a two-axis outcome makes for its second axis */
  function EmittedSecond(o: Outcome<(StepTask, StepTask)>): (tasks: seq<StepTask>)
    ensures |tasks| == if o.Prepared? then 1 else 0
  {
    if o.Prepared? then [o.plan.1] else []
  }

  // ---------------------------------------------------------------- the entry points

  method PrepareLine(sm: Stepper, dl: Long, spd: ULong) returns (code: int)
    requires sm.Params().Valid()
    requires !Line(sm.Params(), dl, spd).Undefined?
    modifies sm`prepared
    ensures code == ErrorCode(Line(sm.Params(), dl, spd))
    ensures sm.prepared == old(sm.prepared) + Emitted(Line(sm.Params(), dl, spd))
  {
    var steps := StepCount(dl, sm.distancePerStep);
    var modSteps: Long := if steps >= 0 then steps else -steps;
    var maxSpd := MaxSpeed(sm.distancePerStep, sm.pulseDelay);
    var speed := spd;
    if speed == 0 {
      speed := maxSpd;
    } else if speed > maxSpd {
      return ERR_TOO_FAST;
    }
    var dt: Long := TransitTime(dl, speed);
    var stepDelay := StepDelay(dt, modSteps);
    sm.PrepareSteps(steps, stepDelay);
    code := 0;
  }

  method PrepareLineAbs(sm: Stepper, cvalue: Long, spd: ULong) returns (code: int)
    requires sm.Params().Valid()
    requires !LineAbs(sm.Params(), sm.currentPos, cvalue, spd).Undefined?
    modifies sm`prepared
    ensures code == ErrorCode(LineAbs(sm.Params(), sm.currentPos, cvalue, spd))
    ensures sm.prepared == old(sm.prepared) + Emitted(LineAbs(sm.Params(), sm.currentPos, cvalue, spd))
  {
    var dl: Long := cvalue - sm.currentPos;
    code := PrepareLine(sm, dl, spd);
  }

  /** When both arguments name the same motor, its log receives both tasks, first axis first. */
  method PrepareLine2D(sm1: Stepper, sm2: Stepper, dl1: Long, dl2: Long, spd: ULong) returns (code: int)
    requires sm1.Params().Valid() && sm2.Params().Valid()
    requires !Line2D(sm1.Params(), sm2.Params(), dl1, dl2, spd).Undefined?
    modifies sm1`prepared, sm2`prepared
    ensures code == ErrorCode(Line2D(sm1.Params(), sm2.Params(), dl1, dl2, spd))
    ensures sm1 != sm2 ==>
      && sm1.prepared == old(sm1.prepared) + EmittedFirst(Line2D(sm1.Params(), sm2.Params(), dl1, dl2, spd))
      && sm2.prepared == old(sm2.prepared) + EmittedSecond(Line2D(sm1.Params(), sm2.Params(), dl1, dl2, spd))
    ensures sm1 == sm2 ==>
      sm1.prepared == old(sm1.prepared) + EmittedFirst(Line2D(sm1.Params(), sm2.Params(), dl1, dl2, spd))
                                        + EmittedSecond(Line2D(sm1.Params(), sm2.Params(), dl1, dl2, spd))
  {
    var steps1 := StepCount(dl1, sm1.distancePerStep);
    var steps2 := StepCount(dl2, sm2.distancePerStep);
    var modSteps1: Long := if steps1 >= 0 then steps1 else -steps1;
    var modSteps2: Long := if steps2 >= 0 then steps2 else -steps2;
    var maxSpd1 := MaxSpeed(sm1.distancePerStep, sm1.pulseDelay);
    var maxSpd2 := MaxSpeed(sm2.distancePerStep, sm2.pulseDelay);
    var maxSpd := if maxSpd1 < maxSpd2 then maxSpd1 else maxSpd2;
    var speed := spd;
    if speed == 0 {
      speed := maxSpd;
    } else if speed > maxSpd {
      return ERR_TOO_FAST;
    }
    var dl: Long := PathLength(dl1, dl2);
    var dt: Long := TransitTime(dl, speed);
    var stepDelay1 := StepDelay(dt, modSteps1);
    var stepDelay2 := StepDelay(dt, modSteps2);
    sm1.PrepareSteps(steps1, stepDelay1);
    sm2.PrepareSteps(steps2, stepDelay2);
    code := 0;
  }

  method PrepareLine2DAbs(sm1: Stepper, sm2: Stepper, cvalue1: Long, cvalue2: Long, spd: ULong) returns (code: int)
    requires sm1.Params().Valid() && sm2.Params().Valid()
    requires !Line2DAbs(sm1.Params(), sm2.Params(), sm1.currentPos, sm2.currentPos, cvalue1, cvalue2, spd).Undefined?
    modifies sm1`prepared, sm2`prepared
    ensures code == ErrorCode(Line2DAbs(sm1.Params(), sm2.Params(), sm1.currentPos, sm2.currentPos, cvalue1, cvalue2, spd))
    ensures sm1 != sm2 ==>
      && sm1.prepared == old(sm1.prepared)
           + EmittedFirst(Line2DAbs(sm1.Params(), sm2.Params(), sm1.currentPos, sm2.currentPos, cvalue1, cvalue2, spd))
      && sm2.prepared == old(sm2.prepared)
           + EmittedSecond(Line2DAbs(sm1.Params(), sm2.Params(), sm1.currentPos, sm2.currentPos, cvalue1, cvalue2, spd))
    ensures sm1 == sm2 ==>
      sm1.prepared == old(sm1.prepared)
        + EmittedFirst(Line2DAbs(sm1.Params(), sm2.Params(), sm1.currentPos, sm2.currentPos, cvalue1, cvalue2, spd))
        + EmittedSecond(Line2DAbs(sm1.Params(), sm2.Params(), sm1.currentPos, sm2.currentPos, cvalue1, cvalue2, spd))
  {
    var dl1: Long := cvalue1 - sm1.currentPos;
    var dl2: Long := cvalue2 - sm2.currentPos;
    code := PrepareLine2D(sm1, sm2, dl1, dl2, spd);
  }
}
