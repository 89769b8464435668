/**
 * The compensator `PIDControl`: P term plus the raw accumulator (Ki is not
 * applied) plus a derivative passed through a 3-sample moving average. The
 * moving average is a global shared by every instance, so the model holds it
 * as a reference that the instance does not own.
 */
module SmoothedPIDCompensator {
  import opened Integrator
  import opened Averaging

  /** The raw derivative the step feeds to the smoothing window: the error change per second. */
  function RawDerivative(error: real, prevError: real, timestep: nat): (d: real)
    requires timestep > 0
    ensures d * (timestep as real) == (error - prevError) * 1000000.0
  {
    (error - prevError) * 1000000.0 / (timestep as real)
  }

  class PIDControl {
    const Kp: real
    /** Read only by the I signal path; the step's sum does not apply it. */
    const Ki: real
    /** Stored and never read. */
    const Kd: real
    /** The shared global 3-sample derivative smoothing window. */
    const dSmoothing: MovingAverage

    var thisError: real
    /** Never assigned after construction. */
    var prevError: real
    var accError: real
    /** The last timestep handed in, in microseconds. */
    var timestep: nat
    var compensateError: real
    /** Every integration step taken so far, through either path, oldest first. */
    ghost var Samples: seq<Sample>

    ghost predicate Valid()
      reads this, dSmoothing
    {
      && dSmoothing.Valid() && dSmoothing.N == 3
      && accError == Accumulated(Samples)
      && prevError == 0.0
    }

    constructor (kp: real, ki: real, kd: real, smoothing: MovingAverage)
      requires smoothing.Valid() && smoothing.N == 3
      ensures Valid() && Kp == kp && Ki == ki && Kd == kd && dSmoothing == smoothing
      ensures thisError == 0.0 && accError == 0.0 && timestep == 0 && compensateError == 0.0
      ensures Samples == []
    {
      Kp, Ki, Kd := kp, ki, kd;
      dSmoothing := smoothing;
      thisError, prevError, accError := 0.0, 0.0, 0.0;
      timestep, compensateError := 0, 0.0;
      Samples := [];
    }

    /**
     * One control step. Integrates, feeds one raw derivative (against a
     * previous error that stays 0) into the smoothing window, and returns
     * P plus the unscaled accumulator plus the smoothed derivative.
     */
    method CompensateSignal(error: real, timestep: nat) returns (r: real)
      requires Valid()
      requires timestep > 0
      modifies this, dSmoothing
      ensures Valid()
      ensures thisError == error && this.timestep == timestep && prevError == 0.0
      ensures Samples == old(Samples) + [Sample(error, timestep)]
      ensures accError == old(accError) + Increment(Sample(error, timestep))
      ensures dSmoothing.History == old(dSmoothing.History) + [RawDerivative(error, 0.0, timestep)]
      ensures dSmoothing.value == Mean(Window(dSmoothing.History, 3))
      ensures r == compensateError == error * Kp + accError + dSmoothing.value
    {
      compensateError := 0.0;

      thisError := error;
      this.timestep := timestep;

      var pError := error * Kp;
      accError := accError + error * (timestep as real) / 1000000.0;
      Samples := Samples + [Sample(error, timestep)];
      assert Samples[..|Samples| - 1] == old(Samples);
      assert accError == Accumulated(Samples);
      var dError := (error - prevError) * 1000000.0 / (timestep as real);
      assert dError == RawDerivative(error, 0.0, timestep);
      dSmoothing.AddData(dError);
      compensateError := compensateError + (pError + accError + dSmoothing.value);

      r := compensateError;
    }

    function PSignal(): (p: real)
      reads this
      ensures thisError == 0.0 ==> p == 0.0
      ensures Kp >= 0.0 && thisError >= 0.0 ==> p >= 0.0
    {
      Kp * thisError
    }

    /** A second integration path: each call integrates the stored error over the stored timestep again. */
    method ISignal() returns (i: real)
      requires Valid()
      modifies this`accError, this`Samples
      ensures Valid()
      ensures Samples == old(Samples) + [Sample(thisError, timestep)]
      ensures accError == old(accError) + Increment(Sample(thisError, timestep))
      ensures i == Ki * accError
    {
      accError := accError + thisError * (timestep as real) / 1000000.0;
      Samples := Samples + [Sample(thisError, timestep)];
      assert Samples[..|Samples| - 1] == old(Samples);
      i := Ki * accError;
    }
  }
}
