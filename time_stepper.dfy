/**
 * The time stepper a generalized-alpha integrator owns: the current time, the fixed step size,
 * the number of steps, the cap on Newton iterations per step, and two iteration counters (the
 * current step's and the running total). Only the operations the integrator calls are modelled.
 */
module TimeStepping {

  class TimeStepper {
    const timeStep: real
    const numberOfSteps: nat
    const maximumIterations: nat
    var currentTime: real
    var iterations: nat
    var totalIterations: nat

    /** `TimeStepper(initial time, step size, number of steps, maximum iterations)`. */
    constructor(initialTime: real, timeStep: real, numberOfSteps: nat, maximumIterations: nat)
      ensures this.timeStep == timeStep && this.numberOfSteps == numberOfSteps
      ensures this.maximumIterations == maximumIterations
      ensures currentTime == initialTime && iterations == 0 && totalIterations == 0
    {
      this.timeStep := timeStep;
      this.numberOfSteps := numberOfSteps;
      this.maximumIterations := maximumIterations;
      currentTime := initialTime;
      iterations := 0;
      totalIterations := 0;
    }

    /** The copy an integrator takes of the stepper it is given: every field, counters included. */
    constructor Copy(other: TimeStepper)
      ensures timeStep == other.timeStep && numberOfSteps == other.numberOfSteps
      ensures maximumIterations == other.maximumIterations && currentTime == other.currentTime
      ensures iterations == other.iterations && totalIterations == other.totalIterations
    {
      timeStep := other.timeStep;
      numberOfSteps := other.numberOfSteps;
      maximumIterations := other.maximumIterations;
      currentTime := other.currentTime;
      iterations := other.iterations;
      totalIterations := other.totalIterations;
    }

    /** `AdvanceTimeStep`: the current time moves forward by one step; the counters stay. */
    method AdvanceTimeStep()
      modifies this
      ensures currentTime == old(currentTime) + timeStep
      ensures iterations == old(iterations) && totalIterations == old(totalIterations)
    {
      currentTime := currentTime + timeStep;
    }

    /** `SetNumberOfIterations`: resets the current step's counter. */
    method SetNumberOfIterations(n: nat)
      modifies this
      ensures iterations == n
      ensures currentTime == old(currentTime) && totalIterations == old(totalIterations)
    {
      iterations := n;
    }

    /** `IncrementNumberOfIterations`: one more Newton iteration in the current step. */
    method IncrementNumberOfIterations()
      modifies this
      ensures iterations == old(iterations) + 1
      ensures currentTime == old(currentTime) && totalIterations == old(totalIterations)
    {
      iterations := iterations + 1;
    }

    /** `IncrementTotalNumberOfIterations(n)`: adds a finished step's iterations to the total. */
    method IncrementTotalNumberOfIterations(n: nat)
      modifies this
      ensures totalIterations == old(totalIterations) + n
      ensures currentTime == old(currentTime) && iterations == old(iterations)
    {
      totalIterations := totalIterations + n;
    }
  }
}
