/**
 * The PI compensator `PIcontrol`: a proportional term plus a never-reset
 * integral accumulator, stepped once per call.
 */
module PICompensator {
  import opened Integrator

  class PIcontrol {
    const Kp: real
    const Ki: real

    var thisError: real
    /** The integral accumulator `_accError_t`. */
    var accError: real
    /** The last timestep handed in, in microseconds. */
    var timestep: nat
    var compensateError: real
    /** Every integration step taken so far, oldest first. */
    ghost var Samples: seq<Sample>

    ghost predicate Valid()
      reads this
    {
      accError == Accumulated(Samples)
    }

    constructor (kp: real, ki: real)
      ensures Valid() && Kp == kp && Ki == ki
      ensures thisError == 0.0 && accError == 0.0 && timestep == 0 && compensateError == 0.0
      ensures Samples == []
    {
      Kp, Ki := kp, ki;
      thisError, accError, timestep, compensateError := 0.0, 0.0, 0, 0.0;
      Samples := [];
    }

    /** One control step: rebuilds the output from 0 as P plus I, with I taken after this step's integration. */
    method CompensateSignal(error: real, timestep: nat) returns (r: real)
      requires Valid()
      modifies this
      ensures Valid()
      ensures thisError == error && this.timestep == timestep
      ensures Samples == old(Samples) + [Sample(error, timestep)]
      ensures accError == old(accError) + Increment(Sample(error, timestep))
      ensures r == compensateError == Kp * error + Ki * accError
      ensures error == 0.0 ==> accError == old(accError) && r == Ki * old(accError)
    {
      compensateError := 0.0;

      thisError := error;
      this.timestep := timestep;

      var p := PSignal();
      compensateError := compensateError + p;
      var i := ISignal();
      compensateError := compensateError + i;

      r := compensateError;
    }

    function PSignal(): (p: real)
      reads this
      ensures thisError == 0.0 ==> p == 0.0
      ensures Kp >= 0.0 && thisError >= 0.0 ==> p >= 0.0
    {
      Kp * thisError
    }

    /** Integrates the stored error over the stored timestep and returns the I term. */
    method ISignal() returns (i: real)
      requires Valid()
      modifies this`accError, this`Samples
      ensures Valid()
      ensures Samples == old(Samples) + [Sample(thisError, timestep)]
      ensures accError == old(accError) + Increment(Sample(thisError, timestep))
      ensures i == Ki * accError
    {
      accError := accError + thisError * (timestep as real) / 1000000.0;
      Samples := Samples + [Sample(thisError, timestep)];
      assert Samples[..|Samples| - 1] == old(Samples);
      i := Ki * accError;
    }
  }
}
