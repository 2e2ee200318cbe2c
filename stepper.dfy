/**
  The parts of the `stepper` motor record that the linear planner reads, and the
  one operation of the stepper library it calls. The library's own scheduling
  of pulses lives outside this model: `PrepareSteps` only records each
  (steps, step_delay) pair it is handed, in call order.
 */
module StepperDevice {
  import opened CArith

  /** The physical constants of one axis: the length of one step and the
      shortest allowed pause between two pulses, in microseconds. */
  datatype Axis = Axis(distancePerStep: ULong, pulseDelay: ULong)
  {
    /** Both constants are positive; the step length also fits a `long`, so that
        `dl / distance_per_step` is a signed division. */
    predicate Valid() {
      0 < distancePerStep <= LONG_MAX && 0 < pulseDelay
    }
  }

  /** One call of `prepare_steps`: a signed step count (its sign is the
      direction) and the pause between pulses, in microseconds. */
  datatype StepTask = StepTask(steps: Long, stepDelay: ULong)

  class Stepper {
    const distancePerStep: ULong
    const pulseDelay: ULong
    /** Absolute position of the axis, in the unit of `distancePerStep` */
    var currentPos: Long
    /** Every task handed to `prepare_steps` for this motor, oldest first */
    var prepared: seq<StepTask>

    constructor (distancePerStep: ULong, pulseDelay: ULong, currentPos: Long)
      ensures this.distancePerStep == distancePerStep && this.pulseDelay == pulseDelay
      ensures this.currentPos == currentPos && prepared == []
    {
      this.distancePerStep := distancePerStep;
      this.pulseDelay := pulseDelay;
      this.currentPos := currentPos;
      prepared := [];
    }

    function Params(): Axis {
      Axis(distancePerStep, pulseDelay)
    }

    /** `prepare_steps(sm, steps, step_delay)` */
    method PrepareSteps(steps: Long, stepDelay: ULong)
      modifies this`prepared
      ensures prepared == old(prepared) + [StepTask(steps, stepDelay)]
    {
      prepared := prepared + [StepTask(steps, stepDelay)];
    }
  }
}
