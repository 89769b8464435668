/**
 * The PID compensator `PIDcontrol`, the variant the motor controller uses.
 * Its derivative stage is wired in but contributes nothing, so the output is
 * the P term plus the I term.
 */
module PIDCompensator {
  import opened Integrator

  class PIDcontrol {
    const Kp: real
    const Ki: real
    /** Stored; the derivative stage returns 0 whatever it is. */
    const Kd: real

    var thisError: real
    var prevError: real
    /** The integral accumulator `_accError_t`. */
    var accError: real
    /** The last timestep handed in, in microseconds. */
    var timeStep: nat
    var compensateError: real
    /** Every integration step taken so far, oldest first. */
    ghost var Samples: seq<Sample>

    /** The accumulator is the Riemann sum of every step taken. */
    ghost predicate IntegralValid()
      reads this
    {
      accError == Accumulated(Samples)
    }

    /** Between calls the previous error is the error of the last call (0 before the first). */
    ghost predicate Valid()
      reads this
    {
      IntegralValid() && prevError == thisError
    }

    constructor (kp: real, ki: real, kd: real)
      ensures Valid() && Kp == kp && Ki == ki && Kd == kd
      ensures thisError == 0.0 && prevError == 0.0 && accError == 0.0
      ensures timeStep == 0 && compensateError == 0.0
      ensures Samples == []
    {
      Kp, Ki, Kd := kp, ki, kd;
      thisError, prevError, accError := 0.0, 0.0, 0.0;
      timeStep, compensateError := 0, 0.0;
      Samples := [];
    }

    /** One control step: rebuilds the output from 0 as P plus I plus D (which is 0), then records the error as previous. */
    method CompensateSignal(error: real, timeStep: nat) returns (r: real)
      requires Valid()
      modifies this
      ensures Valid()
      ensures thisError == error && prevError == error && this.timeStep == timeStep
      ensures Samples == old(Samples) + [Sample(error, timeStep)]
      ensures accError == old(accError) + Increment(Sample(error, timeStep))
      ensures r == compensateError == Kp * error + Ki * accError == Output(error, accError)
      ensures error == 0.0 ==> accError == old(accError) && r == Ki * old(accError)
    {
      compensateError := 0.0;

      thisError := error;
      this.timeStep := timeStep;

      var p := PSignal();
      compensateError := compensateError + p;
      var i := ISignal();
      compensateError := compensateError + i;
      var d := DSignal();
      compensateError := compensateError + d;

      prevError := thisError;

      r := compensateError;
    }

    /**
     * The control law: the output for an error and the accumulator after
     * integrating it is the P term plus the I term (the D term is 0).
     */
    function Output(error: real, acc: real): (u: real)
      ensures error == 0.0 ==> u == Ki * acc
      ensures Kp >= 0.0 && Ki >= 0.0 && error <= 0.0 && acc <= 0.0 ==> u <= 0.0
    {
      Kp * error + Ki * acc
    }

    function PSignal(): (p: real)
      reads this
      ensures thisError == 0.0 ==> p == 0.0
      ensures Kp >= 0.0 && thisError >= 0.0 ==> p >= 0.0
    {
      Kp * thisError
    }

    /** Integrates the stored error over the stored timestep and returns the I term. */
    method ISignal() returns (i: real)
      requires IntegralValid()
      modifies this`accError, this`Samples
      ensures IntegralValid()
      ensures Samples == old(Samples) + [Sample(thisError, timeStep)]
      ensures accError == old(accError) + Increment(Sample(thisError, timeStep))
      ensures i == Ki * accError
    {
      accError := accError + thisError * (timeStep as real) / 1000000.0;
      Samples := Samples + [Sample(thisError, timeStep)];
      assert Samples[..|Samples| - 1] == old(Samples);
      i := Ki * accError;
    }

    /**
     * The derivative stage. The source computes the difference quotient
     * (thisError - prevError) / timeStep into a local and discards it; the
     * stage returns 0 for every state.
     */
    function DSignal(): (d: real)
      reads this
      ensures d == 0.0
    {
      0.0
    }
  }
}
