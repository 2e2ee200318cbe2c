# Straight-line moves for stepper motors, in Dafny

This project models `stepper_math/stepper_math_linear.cpp`: the part of the
stepper_math library that plans a straight-line move of one or two
stepper-motor axes. Each planning call does the following:

- turns a displacement into a signed step count per axis;
- works out the fastest speed the motors allow, using a staged
  multiply/divide/multiply formula that guards against 32-bit overflow;
- resolves the requested speed: 0 means "as fast as possible", and anything
  above the maximum is refused with `STEPPER_MATH_ERR_TOO_FAST`;
- derives the pause between pulses from the time the move takes;
- hands one `(steps, step_delay)` task per axis to `prepare_steps`.

The model has four modules:

- `CArith` (`c_arith.dfy`): the C integer semantics of a 32-bit controller.
  - `long` and `unsigned long` are bounded types.
  - Division truncates toward zero.
  - Storing a signed value into an unsigned one reduces it modulo 2^32, and
    so does an unsigned product.
  - `ISqrt` is the integer square root.
- `StepperDevice` (`stepper.dfy`): the two constants of an axis the planner
  reads, and a `Stepper` class whose `PrepareSteps` method records every task
  it is handed, in order.
- `StepperMathLinear` (`stepper_math_linear.dfy`):
  - The functions `Line`, `LineAbs`, `Line2D` and `Line2DAbs` say what each
    call computes. The result is `Prepared(plan)`, `TooFast`, or
    `Undefined(fault)` when the C code reaches undefined behaviour.
  - The methods `PrepareLine`, `PrepareLineAbs`, `PrepareLine2D` and
    `PrepareLine2DAbs` follow the C functions statement by statement: the
    same early return, the same local variables, the same calls.
  - Each method is proved to return the function's error code and to append
    exactly the function's tasks to each motor's log. This includes the case
    where both arguments of a two-axis call are the same motor.
- `LinearProperties` (`linear_properties.dfy`): what the planner promises,
  proved about the functions. Examples:
  - the maximum-speed formula never overstates the true maximum;
  - the TOO_FAST test is exact, in both directions;
  - planned pauses are never shorter than the motor's `pulse_delay` for
    forward and two-axis moves; a reverse one-axis pause is too, but only
    because it wraps to `2^32 - delay` (4293967296 us in `LineExample`), so
    this is no safety property for reverse moves;
  - both axes of a diagonal share one transit time;
  - swapping or mirroring the axes of a diagonal relates the plans;
  - an absolute move ends within one step of its target;
  - the worked examples come out as stated.

Assumptions about code the file builds on:

- The target has 32-bit `long` and `unsigned long`.
- `distance_per_step` and `pulse_delay` are positive. `distance_per_step`
  also fits a `long`, the type of the displacement it divides (`Axis.Valid`).
- The division at lines 75 and 208-209 is signed and truncates toward zero.
- The products at lines 111 and 224-225 wrap modulo 2^32, as the comments at
  lines 84-110 reason.
- These two readings need different types for `distance_per_step`; see
  "Left out" for which results rest on which.
- The floating-point transit time at lines 121 and 240 is the exact quotient
  `len * 10^6 / speed`, truncated toward zero.
- The `sqrt` at line 237 is the exact integer square root.

Where the code and its own comments differ, the model follows the code. The
comments at lines 120 and 123 describe `dt` as the time to travel the length
at the given speed, and `step_delay` as the delay between two steps in
microseconds: a duration, which should not depend on the direction. In the
code, a reverse one-axis move has a negative `dt`. Line 124 then
stores a negative quotient into an `unsigned long`, so the delay wraps to
2^32 minus the forward delay. `LineReversal` proves this and
`NegativeMoveDelayWraps` shows the consequence (see Findings). Two-axis moves
do not wrap, because their length is a square root and never negative
(`Line2DReflection`).

## Model

| member | source | states |
|---|---|---|
| CArith.TruncDiv | stepper_math/stepper_math_linear.cpp:75 | C's `/` for a positive divisor: the quotient has the sign of the dividend (or is 0) and is no larger in magnitude |
| CArith.TruncDivBounds | stepper_math/stepper_math_linear.cpp:75 | the truncated quotient is the signed whole number of divisors in the dividend: `Abs(q)*b <= Abs(a) < (Abs(q)+1)*b` |
| CArith.ToULong | stepper_math/stepper_math_linear.cpp:124 | storing a signed value into `unsigned long` keeps it modulo 2^32, and keeps it unchanged when it is in range |
| CArith.MulULong | stepper_math/stepper_math_linear.cpp:111 | a wrapping `unsigned long` product is congruent to the exact product modulo 2^32, is never more than it, and equals it when the exact product fits |
| CArith.ISqrtBounds | stepper_math/stepper_math_linear.cpp:237 | the hypotenuse is the integer square root: `r*r <= n < (r+1)*(r+1)` |
| StepperDevice.Stepper.PrepareSteps | stepper_math/stepper_math_linear.cpp:136 | a `prepare_steps` call appends exactly its `(steps, step_delay)` task to the motor's log and changes nothing else |
| StepperMathLinear.ErrorCode | stepper_math/stepper_math_linear.cpp:113-138 | the return value is 0 exactly when the move was prepared, and 1 (TOO_FAST) exactly when the speed was refused |
| StepperMathLinear.EffectiveMaxSpeed | stepper_math/stepper_math_linear.cpp:227 | the two-axis maximum is the smaller of the two axis maxima: it is at most each and equal to one of them |
| StepperMathLinear.ResolveSpeed | stepper_math/stepper_math_linear.cpp:113-119 | a request is refused exactly when it is nonzero and above the maximum; 0 resolves to the maximum, other requests are used unchanged, and the result never exceeds the maximum |
| StepperMathLinear.StepCount | stepper_math/stepper_math_linear.cpp:75-76 | the step count is 0 exactly when the move is shorter than one step, and has the direction of the displacement |
| StepperMathLinear.MaxSpeed | stepper_math/stepper_math_linear.cpp:111 | the staged maximum `(d*1000/p)*1000` in wrapping `unsigned long`; its properties are stated by `MaxSpeedNeverExceedsExact` (never above `d*10^6/p`), `MaxSpeedStaged` (within 1000 of it when nothing wraps) and `StagedFitsForSlowPulses` |
| StepperMathLinear.TransitTime | stepper_math/stepper_math_linear.cpp:121 | the transit time has the sign of the length; `LineForwardPlan` brackets it as `dt*speed <= len*10^6 < (dt+1)*speed` and `TransitTimeNegation` shows it is odd in the length |
| StepperMathLinear.StepDelay | stepper_math/stepper_math_linear.cpp:124 | a non-negative `dt` gives a delay no larger than `dt`; `LineForwardPlan` brackets it as `delay*steps <= dt < (delay+1)*steps`, and `ReversedDelay` shows a negative `dt` wraps to `2^32 - delay` |
| StepperMathLinear.PathLength | stepper_math/stepper_math_linear.cpp:237 | the integer hypotenuse; `PathLengthBounds` shows `len*len <= dl1^2 + dl2^2 < (len+1)^2` and that it is no shorter than either leg |
| StepperMathLinear.Line | stepper_math/stepper_math_linear.cpp:56-139 | the outcome of `prepare_line`; stated by `LineTooFastIff`, `LineUsesRequestedSpeed`, `LineShortMove`, `LineForwardPlan`, `LineReversal` and `LineExample` |
| StepperMathLinear.LineAbs | stepper_math/stepper_math_linear.cpp:155-159 | the outcome of `prepare_line_abs`; stated by `LineAbsLandsNearTarget` (the relative move by `cvalue - current_pos`, landing less than one step short) |
| StepperMathLinear.Line2D | stepper_math/stepper_math_linear.cpp:176-266 | the outcome of `prepare_line_2d`; stated by `Line2DTooFastIff`, `Line2DSharedTime`, `Line2DAxisSwap`, `Line2DReflection` and `Line2DExample` |
| StepperMathLinear.Diagonal | stepper_math/stepper_math_linear.cpp:236-252 | the timing part of `prepare_line_2d` once the speed is resolved; stated by `DiagonalTiming`, `DiagonalPace`, `DiagonalSwap` and `DiagonalMirror` |
| StepperMathLinear.Line2DAbs | stepper_math/stepper_math_linear.cpp:284-291 | the outcome of `prepare_line_2d_abs`; stated by `Line2DAbsLandsNearTarget` (the relative diagonal by `cvalue_i - current_pos_i`, each axis landing less than one step short) |
| StepperMathLinear.PrepareLine | stepper_math/stepper_math_linear.cpp:56-139 | returns the outcome's error code; the motor's log grows by the one planned task when prepared and stays as it was on TOO_FAST |
| StepperMathLinear.PrepareLineAbs | stepper_math/stepper_math_linear.cpp:155-159 | an absolute move returns and logs what the relative move by `cvalue - current_pos` does |
| StepperMathLinear.PrepareLine2D | stepper_math/stepper_math_linear.cpp:176-266 | returns the outcome's error code; each motor's log grows by its own task when prepared, and neither grows on TOO_FAST; one motor passed twice receives both tasks, first axis first |
| StepperMathLinear.PrepareLine2DAbs | stepper_math/stepper_math_linear.cpp:284-291 | an absolute diagonal returns and logs what the relative diagonal by `cvalue_i - current_pos_i` does |
| LinearProperties.MaxSpeedNeverExceedsExact | stepper_math/stepper_math_linear.cpp:99-111 | the staged maximum speed is at most the exact `floor(d * 10^6 / p)` for every input, even when a product wraps |
| LinearProperties.MaxSpeedStaged | stepper_math/stepper_math_linear.cpp:104-111 | when no intermediate wraps, the staged formula is exact integer arithmetic and falls less than 1000 short of the exact maximum |
| LinearProperties.StagedFitsForSlowPulses | stepper_math/stepper_math_linear.cpp:94-110 | with `pulse_delay >= 1000` and `d*1000 < 2^32`, no intermediate of the staged formula leaves `unsigned long` |
| LinearProperties.MaxSpeedWrapExample | stepper_math/stepper_math_linear.cpp:111 | the first product fitting is not enough: `d = 5000, p = 1` wraps the second product and yields 705032704, far below the exact maximum |
| LinearProperties.MaxSpeedExample | stepper_math/stepper_math_linear.cpp:106-110 | 7500 nm per step and a 1000 us pulse delay give a maximum speed of 7500000 |
| LinearProperties.StepCountNegation | stepper_math/stepper_math_linear.cpp:75-76 | negating the displacement negates the step count and keeps `mod_steps` |
| LinearProperties.LineTooFastIff | stepper_math/stepper_math_linear.cpp:113-119 | a one-axis call fails with TOO_FAST exactly when a nonzero speed above the axis maximum is requested, and then prepares nothing |
| LinearProperties.LineUsesRequestedSpeed | stepper_math/stepper_math_linear.cpp:113-138 | a nonzero request within the maximum is prepared with exactly `steps` and `dt / mod_steps` computed from the request itself |
| LinearProperties.LineShortMove | stepper_math/stepper_math_linear.cpp:121-124 | a move shorter than one step is never prepared: it reaches the division by zero at line 124, or fails before it |
| LinearProperties.LineForwardPlan | stepper_math/stepper_math_linear.cpp:71-138 | a prepared forward move makes the whole steps of `dl`; the transit time is `dl * 10^6 / speed` truncated; the `steps` pauses fall short of it by less than one microsecond per pause (`delay*steps <= dt < (delay+1)*steps`); each pause is at least `pulse_delay` |
| LinearProperties.PaceRespectsPulseDelay | stepper_math/stepper_math_linear.cpp:84-124 | steps paced at a speed within `d * 10^6 / p` over at least their own length never pause less than `p` |
| LinearProperties.LineReversal | stepper_math/stepper_math_linear.cpp:121-124 | the reverse of a prepared forward move is prepared, with the step count negated and the delay `2^32 - forward delay` |
| LinearProperties.LineReversePace | stepper_math/stepper_math_linear.cpp:121-124 | the reverse of a prepared forward move is prepared and its (wrapped) delay is still at least `pulse_delay` |
| LinearProperties.NegativeMoveDelayWraps | stepper_math/stepper_math_linear.cpp:124 | the reverse move's delay differs from the forward one and exceeds `LONG_MAX` |
| LinearProperties.IntendedStepDelay | stepper_math/stepper_math_linear.cpp:124 | the corrected delay is the whole number of steps in `Abs(dt)`: `r*mod_steps <= Abs(dt) < (r+1)*mod_steps` |
| LinearProperties.IntendedDelayIsDirectionFree | stepper_math/stepper_math_linear.cpp:121-124 | with the corrected delay, a forward move and its reverse get the same delay, equal to the forward delay the code computes |
| LinearProperties.IntendedLineReversal | stepper_math/stepper_math_linear.cpp:56-139 | the corrected planner agrees with the code on forward moves; the reverse of a prepared move negates the steps and keeps the delay |
| LinearProperties.LineExample | stepper_math/stepper_math_linear.cpp:56-139 | `d = 1000, p = 1000, dl = 10000, spd = 1000` prepares 10 steps of 1000000 us; the reverse prepares -10 steps with the wrapped delay 4293967296 |
| LinearProperties.LineAbsLandsNearTarget | stepper_math/stepper_math_linear.cpp:155-159 | an absolute move is the relative move by `cvalue - current_pos`, and it ends less than one step from `cvalue`, between the start and the target |
| LinearProperties.Line2DTooFastIff | stepper_math/stepper_math_linear.cpp:224-234 | a diagonal fails with TOO_FAST exactly when a nonzero speed above either axis maximum is requested, and then neither motor gets a task |
| LinearProperties.Line2DSharedTime | stepper_math/stepper_math_linear.cpp:236-252 | a prepared diagonal uses the resolved speed and the integer hypotenuse; both axes divide one transit time; each makes its own whole steps; neither pauses less than its `pulse_delay` |
| LinearProperties.DiagonalPace | stepper_math/stepper_math_linear.cpp:250-252 | over a path no shorter than either displacement, at a speed within both maxima, each axis's pauses fill the shared `dt` and respect its pulse delay |
| LinearProperties.Line2DAxisSwap | stepper_math/stepper_math_linear.cpp:207-252 | exchanging the two axes of a diagonal exchanges their tasks and changes nothing else, failures included |
| LinearProperties.Line2DReflection | stepper_math/stepper_math_linear.cpp:236-252 | reversing one axis of a diagonal negates its steps and keeps both delays, failures included: two-axis delays never wrap |
| LinearProperties.Line2DExample | stepper_math/stepper_math_linear.cpp:207-263 | two equal axes (`d = p = 1000`) moving 3000 by 4000 at maximum speed: maximum 1000000, path 5000, tasks (3, 1666) and (4, 1250) |
| LinearProperties.EffectiveMaxExample | stepper_math/stepper_math_linear.cpp:224-233 | axes of 1000 and 500 nm per step give a diagonal maximum of 500000, and a request of 600000 is refused |
| LinearProperties.Line2DAbsLandsNearTarget | stepper_math/stepper_math_linear.cpp:284-291 | an absolute diagonal is the relative diagonal by `cvalue_i - current_pos_i`, and each axis ends less than one step from its target |

## Left out

- Serial debug output and `Arduino.h` (lines 18-22, 57-69, 78-82, 126-134, 177-198, 215-221, 242-248, 254-260): output only, with no effect on any result.
- Floating point (lines 121, 237, 240). `dt` is the exact quotient truncated toward zero. The hypotenuse is the exact integer square root. Rounding of `double` is not modelled.
- `stepper.h` is not part of this model. From the `stepper` struct, only `distance_per_step`, `pulse_delay` and `current_pos` are modelled. `prepare_steps` only records its task. Its scheduling, and any update of `current_pos`, are left out.
- MulULong, MaxSpeed and StepCount: these rest on two readings of the type of `distance_per_step` (declared in `stepper.h`) that no single type gives on a 32-bit target. If the field is `unsigned long`, the product at line 111 wraps as `MulULong` states, but the division at line 75 converts a negative `dl` to unsigned first (`dl = -10000, d = 1000` gives `steps = 4294957`, not -10). If the field is `long`, the division is signed as `StepCount` states, but an overflow at line 111 is undefined behaviour, not a wrap.
  - Every result about a negative displacement rests on the signed reading. Under the unsigned reading, `dl = -1, d = 1000` gives 4294967 steps at line 75 and the call goes on to `prepare_steps(sm, 4294967, 0)`, where the model has 0 steps and no task. This covers `StepCount`, `StepCountNegation`, `LineShortMove`, `LineUsesRequestedSpeed`, `LineReversal`, `LineReversePace`, `NegativeMoveDelayWraps`, the reverse half of `LineExample`, the Findings row, `IntendedDelayIsDirectionFree`, `IntendedLineReversal`, `Line2DSharedTime`, `DiagonalPace`, `Line2DReflection`, `LineAbsLandsNearTarget`, `Line2DAbsLandsNearTarget`, and the ensures of `PrepareLine`, `PrepareLineAbs`, `PrepareLine2D` and `PrepareLine2DAbs`, each for negative displacements.
  - Every result about an axis whose line-111 intermediates exceed `LONG_MAX` rests on the unsigned reading. Under the signed reading such an axis is undefined behaviour at line 111, where the model gives the unsigned (possibly wrapped) maximum. Examples are `Axis(3000000, 1000)`, whose first product is 3·10^9, and `Axis(5000, 1)`, whose second product wraps. Every result stated for all `Valid()` axes is affected on such axes, for example `MulULong` and `MaxSpeed`, `MaxSpeedNeverExceedsExact`, `MaxSpeedStaged`, `MaxSpeedWrapExample`, `LineTooFastIff`, `LineForwardPlan`, `Line2DTooFastIff`, `Line2DSharedTime` and the four methods' ensures.
  - The rest hold under both readings: non-negative displacements on axes whose line-111 intermediates stay at most `LONG_MAX`. `MaxSpeedStaged` assumes no product reaches 2^32, and `StagedFitsForSlowPulses` proves that none does for `pulse_delay >= 1000`. Neither of them bounds the products by `LONG_MAX`.
- Undefined behaviour is marked `Undefined(fault)` and not given a meaning. It covers negating `LONG_MIN`, overflow of `cvalue - current_pos`, a zero speed, a transit time or hypotenuse outside `long`, and the division by zero at lines 124 and 251-252. The methods require inputs that avoid it. `LineShortMove` flags the division by zero and nothing more is claimed about it.
- Axes with `distance_per_step` above `LONG_MAX` are excluded by `Axis.Valid`.
- MaxSpeedStaged: the "within 1000 of the exact maximum" bound is proved only when neither product wraps (`StagedFits`). Otherwise the second product can wrap, as `MaxSpeedWrapExample` shows.
- StagedFitsForSlowPulses: "no intermediate overflows when `d*1000 < 2^32`" is proved only for `pulse_delay >= 1000`, the usual value the comment at line 94 assumes. For smaller pulse delays the second product can wrap (`MaxSpeedWrapExample`).
- LineReversal: the delay is not the same for `dl` and `-dl`. The code wraps it, and the model follows the code.

## Findings

| source | as written | input that shows it | evidently intended | confidence | as-written member | corrected member |
|---|---|---|---|---|---|---|
| stepper_math/stepper_math_linear.cpp:124 | `step_delay = dt / mod_steps` with a negative `dt` for a reverse move stores a negative quotient into `unsigned long`, which wraps to `2^32 - delay` | `distance_per_step = 1000`, `pulse_delay = 1000`, `dl = -10000`, `spd = 1000`: -10 steps of 4293967296 us instead of 1000000 us | the pause between pulses depends only on the length of the move, not its direction | not executed | LinearProperties.NegativeMoveDelayWraps | LinearProperties.IntendedLineReversal |
