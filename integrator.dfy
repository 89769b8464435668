/**
 * The integral term shared by the three compensators: a running Riemann sum
 * that adds `error * timestep / 1000000` on every call (the timestep is in
 * microseconds) and is never reset.
 */
module Integrator {

  /** One integration step: the error handed in and the elapsed microseconds. */
  datatype Sample = Sample(error: real, micros: nat)

  /** What one step adds to the accumulator: the error times the elapsed time in seconds. */
  function Increment(s: Sample): (r: real)
  {
    s.error * (s.micros as real) / 1000000.0
  }

  /** The accumulator after the given steps, starting from 0. */
  function Accumulated(samples: seq<Sample>): (r: real)
  {
    if samples == [] then 0.0
    else Accumulated(samples[..|samples| - 1]) + Increment(samples[|samples| - 1])
  }

  /** Total elapsed microseconds of the given steps. */
  function ElapsedMicros(samples: seq<Sample>): (n: nat)
  {
    if samples == [] then 0
    else ElapsedMicros(samples[..|samples| - 1]) + samples[|samples| - 1].micros
  }

  ghost predicate ConstantError(samples: seq<Sample>, e: real)
  {
    forall i :: 0 <= i < |samples| ==> samples[i].error == e
  }

  /** The accumulator over two runs of steps is the sum of the two runs' contributions. */
  lemma {:induction false} AccumulatedSplit(a: seq<Sample>, b: seq<Sample>)
    ensures Accumulated(a + b) == Accumulated(a) + Accumulated(b)
  {
    if b != [] {
      assert (a + b)[..|a + b| - 1] == a + b[..|b| - 1];
      AccumulatedSplit(a, b[..|b| - 1]);
    } else {
      assert a + b == a;
    }
  }

  /** A constant error e held for T microseconds contributes exactly e * T / 1000000. */
  lemma {:induction false} ConstantErrorIntegral(samples: seq<Sample>, e: real)
    requires ConstantError(samples, e)
    ensures Accumulated(samples) == e * (ElapsedMicros(samples) as real) / 1000000.0
  {
    if samples != [] {
      var init := samples[..|samples| - 1];
      var m := samples[|samples| - 1].micros as real;
      ConstantErrorIntegral(init, e);
      var t := ElapsedMicros(init) as real;
      calc {
        Accumulated(samples);
        e * t / 1000000.0 + e * m / 1000000.0;
        { assert e * t + e * m == e * (t + m); }
        e * (t + m) / 1000000.0;
      }
    }
  }

  /** Zero error held over any number of steps leaves the accumulator where it was. */
  lemma {:induction false} ZeroErrorKeepsIntegral(before: seq<Sample>, zeros: seq<Sample>)
    requires ConstantError(zeros, 0.0)
    ensures Accumulated(before + zeros) == Accumulated(before)
  {
    AccumulatedSplit(before, zeros);
    ConstantErrorIntegral(zeros, 0.0);
  }
}
