/**
 * The motor controller `MotorControl`: per control cycle it reads an encoder
 * sample, applies the direction-reversal latch, forms and saturates the speed
 * error, and on a fresh sample steps the PID compensator, clamps the
 * compensation voltage to [0, 100], drives the enable output and runs the
 * steady-state detector. The encoder query becomes the (speed, timestamp)
 * parameters of Run and Stop; the direction pins and the enable PWM duty are
 * ghost fields recording what was last written to the hardware.
 */
module Motor {
  import opened Integrator
  import PIDCompensator

  datatype Direction = Clockwise | C_Clockwise

  /** The adjusted error is saturated to plus or minus this bound. */
  const SaturationBound: real := 2.0
  /** Errors strictly inside plus or minus this band are snapped to 0. */
  const DeadBand: real := 0.1
  /** A cycle is steady when the compensation voltage moved by less than this. */
  const SteadyStateCriteria: real := 0.01
  /** Steady is not reported at or above this compensation voltage. */
  const SaturatedPower: real := 99.99

  function Abs(x: real): (r: real)
  {
    if x < 0.0 then -x else x
  }

  /** The other direction. */
  function Flip(d: Direction): (r: Direction)
    ensures r != d
  {
    if d == Clockwise then C_Clockwise else Clockwise
  }

  /** Changing the set direction twice restores it. */
  lemma ChgDirectionTwice(d: Direction)
    ensures Flip(Flip(d)) == d
  {
  }

  /** The levels (pin 1, pin 2) that setDirection writes for a direction. */
  function PinLevels(d: Direction): (levels: (bool, bool))
    ensures levels.0 != levels.1
    ensures levels.0 == d.C_Clockwise?
  {
    if d == Clockwise then (false, true) else (true, false)
  }

  /**
   * The direction latch of processInput: the driven direction and the
   * reference after the check, given the driven direction, the requested
   * direction, the compensation voltage and the reference before it.
   */
  function Latch(current: Direction, target: Direction, compVolt: real, refVolt: real): (r: (Direction, real))
    ensures r.0 != current ==> compVolt == 0.0 && r.0 == target
    ensures compVolt != 0.0 ==> r.0 == current
    ensures compVolt == 0.0 ==> r.0 == target && r.1 == refVolt
    ensures r.0 == target || r.1 == 0.0
    ensures current == target ==> r == (current, refVolt)
  {
    if current != target then
      if compVolt == 0.0 then (target, refVolt) else (current, 0.0)
    else (current, refVolt)
  }

  /** Saturation with dead-band applied to the error voltage. */
  function AdjustError(e: real): (a: real)
    ensures -SaturationBound <= a <= SaturationBound
    ensures a == 0.0 <==> -DeadBand < e < DeadBand
    ensures a != 0.0 ==> DeadBand <= Abs(a)
    ensures DeadBand <= Abs(e) <= SaturationBound ==> a == e
    ensures e > SaturationBound ==> a == SaturationBound
    ensures e < -SaturationBound ==> a == -SaturationBound
  {
    if e > SaturationBound then SaturationBound
    else if e < -SaturationBound then -SaturationBound
    else if e < DeadBand && e > -DeadBand then 0.0
    else e
  }

  /** A larger error never gives a smaller adjusted error. */
  lemma AdjustErrorMonotone(e1: real, e2: real)
    requires e1 <= e2
    ensures AdjustError(e1) <= AdjustError(e2)
  {
  }

  /** Adjusting an already adjusted error changes nothing. */
  lemma AdjustErrorIdempotent(e: real)
    ensures AdjustError(AdjustError(e)) == AdjustError(e)
  {
  }

  /** The range clamp of the compensation voltage. */
  function Clamp(v: real): (c: real)
    ensures 0.0 <= c <= 100.0
    ensures 0.0 <= v <= 100.0 ==> c == v
    ensures v > 100.0 ==> c == 100.0
    ensures v < 0.0 ==> c == 0.0
  {
    if v > 100.0 then 100.0 else if v < 0.0 then 0.0 else v
  }

  /**
   * The steady counter for a run of compensation voltages (the initial
   * previous power followed by the voltage after each accepted cycle):
   * counts the trailing consecutive steady transitions.
   */
  function SteadyRun(powers: seq<real>): (n: nat)
  {
    if |powers| < 2 then 0
    else if Abs(powers[|powers| - 1] - powers[|powers| - 2]) < SteadyStateCriteria
    then SteadyRun(powers[..|powers| - 1]) + 1
    else 0
  }

  /** The steady counter is exactly the length of the maximal run of steady transitions at the end. */
  lemma {:induction false} SteadyRunIsTrailingRun(p: seq<real>)
    ensures p != [] ==> SteadyRun(p) <= |p| - 1
    ensures forall i :: |p| - 1 - SteadyRun(p) <= i < |p| - 1 ==>
      Abs(p[i + 1] - p[i]) < SteadyStateCriteria
    ensures 0 < |p| - 1 - SteadyRun(p) ==>
      Abs(p[|p| - 1 - SteadyRun(p)] - p[|p| - 2 - SteadyRun(p)]) >= SteadyStateCriteria
  {
    if |p| >= 2 && Abs(p[|p| - 1] - p[|p| - 2]) < SteadyStateCriteria {
      var q := p[..|p| - 1];
      SteadyRunIsTrailingRun(q);
      assert forall i :: 0 <= i < |q| ==> q[i] == p[i];
    }
  }

  /** A compensation voltage held constant over the last k cycles gives a steady count of at least k. */
  lemma {:induction false} ConstantPowerIsSteady(p: seq<real>, k: nat, c: real)
    requires k < |p|
    requires forall i :: |p| - 1 - k <= i < |p| ==> p[i] == c
    ensures SteadyRun(p) >= k
  {
    if k > 0 {
      var q := p[..|p| - 1];
      assert p[|p| - 1] == c && p[|p| - 2] == c;
      ConstantPowerIsSteady(q, k - 1, c);
    }
  }

  /**
   * One compensator step from the zero state, as the constructor's stop
   * cycle takes on a first sample later than 0: the gains kp and ki, the
   * error e, the accumulator acc after that one step and the output out.
   * With gains that are not negative and an error of at most 0, the voltage
   * the step leaves, starting from 0, is 0.
   */
  lemma StepFromRestIsOff(kp: real, ki: real, e: real, timestamp: nat, acc: real, out: real)
    requires kp >= 0.0 && ki >= 0.0 && e <= 0.0
    requires acc == Accumulated([Sample(e, timestamp)]) && out == kp * e + ki * acc
    ensures Clamp(0.0 + out) == 0.0
  {
    assert [Sample(e, timestamp)][..0] == [];
    assert acc == e * (timestamp as real) / 1000000.0;
    assert acc <= 0.0 by {
      assert e * (timestamp as real) <= 0.0;
    }
    assert kp * e <= 0.0;
    assert ki * acc <= 0.0;
  }

  /**
   * ... but with a positive proportional gain and an error beyond the
   * dead-band (a zero reference and a negative speed) the voltage is positive.
   */
  lemma StepFromRestDrives(kp: real, ki: real, e: real, timestamp: nat, acc: real, out: real)
    requires kp > 0.0 && ki >= 0.0 && e >= DeadBand
    requires acc == Accumulated([Sample(e, timestamp)]) && out == kp * e + ki * acc
    ensures Clamp(0.0 + out) > 0.0
  {
    assert [Sample(e, timestamp)][..0] == [];
    assert acc == e * (timestamp as real) / 1000000.0;
    assert acc >= 0.0 by {
      assert e * (timestamp as real) >= 0.0;
    }
    assert kp * e > 0.0;
    assert ki * acc >= 0.0;
  }

  /** Each timestamp is later than the one before it. */
  ghost predicate StrictlyIncreasing(s: seq<nat>)
  {
    |s| < 2 || (StrictlyIncreasing(s[..|s| - 1]) && s[|s| - 2] < s[|s| - 1])
  }

  /** In a strictly increasing run of timestamps every earlier one is smaller than every later one. */
  lemma {:induction false} StrictlyIncreasingOrdered(s: seq<nat>, i: nat, j: nat)
    requires StrictlyIncreasing(s)
    requires i < j < |s|
    ensures s[i] < s[j]
  {
    var q := s[..|s| - 1];
    if j < |s| - 1 {
      StrictlyIncreasingOrdered(q, i, j);
    } else if i < |s| - 2 {
      StrictlyIncreasingOrdered(q, i, |s| - 2);
    }
  }

  class MotorControl {
    /** The PID compensator the controller owns. */
    const piControl: PIDCompensator.PIDcontrol

    var ratedRPM: real
    var continuousSteadyCriteria: nat
    /** Reference as a fraction of rated speed. */
    var refVolt: real
    var speed: real
    /** Measured speed on the 0 to 100 scale of rated speed. */
    var speedVolt: real
    var errorVolt: real
    var adjErrorVolt: real
    /** Compensation voltage on the 0 to 100 scale. */
    var compVolt: real
    var thisTime: nat
    /** Timestamp of the last accepted encoder sample, in microseconds. */
    var prevTime: nat
    var steadyCount: nat
    var prevPower: real
    var motorCurrentDirection: Direction
    var motorSetDirection: Direction

    /** Last levels written to the two direction pins. */
    ghost var pin1: bool
    ghost var pin2: bool
    /** Last duty written to the enable PWM output. */
    ghost var enableDuty: real
    /** The initial previous timestamp followed by every accepted timestamp. */
    ghost var Accepted: seq<nat>
    /** The initial previous power followed by the compensation voltage after every accepted cycle. */
    ghost var Powers: seq<real>

    /** The steady-state detector's bookkeeping. */
    ghost predicate SteadyValid()
      reads this`Powers, this`prevPower, this`steadyCount
    {
      Powers != [] && Powers[|Powers| - 1] == prevPower && steadyCount == SteadyRun(Powers)
    }

    /** The compensation voltage stays in [0, 100] and the enable output carries it as a duty. */
    ghost predicate DriveValid()
      reads this`compVolt, this`enableDuty
    {
      0.0 <= compVolt <= 100.0 && enableDuty == compVolt / 100.0
    }

    /** The two direction pins are never driven to the same level, and the adjusted error is the saturated error. */
    ghost predicate InputValid()
      reads this`pin1, this`pin2, this`errorVolt, this`adjErrorVolt
    {
      pin1 != pin2 && adjErrorVolt == AdjustError(errorVolt)
    }

    /** Accepted timestamps strictly increase and the last one is the previous time. */
    ghost predicate ClockValid()
      reads this`Accepted, this`prevTime
    {
      Accepted != [] && StrictlyIncreasing(Accepted) && Accepted[|Accepted| - 1] == prevTime
    }

    ghost predicate Valid()
      reads this, piControl
    {
      && piControl.Valid()
      && ratedRPM != 0.0
      && DriveValid()
      && InputValid()
      && ClockValid()
      && SteadyValid()
    }

    /**
     * Builds the compensator, runs one stop cycle on the first encoder
     * sample and then drives the pins for the initial direction (the
     * argument stands for the default of the no-argument setDirection, whose
     * declaration is not part of this model). Both directions start at the
     * zero value `Clockwise`, so the stop cycle leaves the pins alone and
     * their levels before setDirection are any two distinct ones; only the
     * requested direction takes the argument, and the driven one follows it
     * on the first cycle at voltage 0. The steady threshold has no
     * initialiser in the source; it is a parameter here.
     */
    constructor (kp: real, ki: real, kd: real, ratedRPM: real, continuousSteadyCriteria: nat,
                 initialDirection: Direction, speed: real, timestamp: nat)
      requires ratedRPM != 0.0
      ensures Valid() && fresh(piControl)
      ensures piControl.Kp == kp && piControl.Ki == ki && piControl.Kd == kd
      ensures this.ratedRPM == ratedRPM && this.continuousSteadyCriteria == continuousSteadyCriteria
      ensures motorCurrentDirection == Clockwise && motorSetDirection == initialDirection
      ensures (pin1, pin2) == PinLevels(initialDirection)
      ensures refVolt == 0.0 && this.speed == speed && thisTime == timestamp && prevTime == timestamp
      ensures speedVolt == speed * 100.0 / ratedRPM
      ensures errorVolt == -speedVolt && adjErrorVolt == AdjustError(-speedVolt)
      ensures timestamp == 0 ==>
        && piControl.Samples == [] && compVolt == 0.0 && enableDuty == 0.0
        && Powers == [0.0] && prevPower == 0.0 && steadyCount == 0
      ensures timestamp > 0 ==>
        && piControl.Samples == [Sample(adjErrorVolt, timestamp)]
        && piControl.compensateError == piControl.Output(adjErrorVolt, piControl.accError)
        && compVolt == Clamp(piControl.compensateError) && enableDuty == compVolt / 100.0
        && Powers == [0.0, compVolt] && prevPower == compVolt
        && steadyCount == (if compVolt < SteadyStateCriteria then 1 else 0)
      ensures kp >= 0.0 && ki >= 0.0 && speedVolt >= 0.0 ==> enableDuty == 0.0
      ensures timestamp > 0 && kp > 0.0 && ki >= 0.0 && speedVolt <= -DeadBand ==> enableDuty > 0.0
    {
      piControl := new PIDCompensator.PIDcontrol(kp, ki, kd);
      this.ratedRPM := ratedRPM;
      this.continuousSteadyCriteria := continuousSteadyCriteria;
      refVolt, this.speed, speedVolt, errorVolt, adjErrorVolt, compVolt := 0.0, 0.0, 0.0, 0.0, 0.0, 0.0;
      thisTime, prevTime, steadyCount, prevPower := 0, 0, 0, 0.0;
      motorCurrentDirection, motorSetDirection := Clockwise, Clockwise;
      pin1, pin2, enableDuty := false, true, 0.0;
      Accepted, Powers := [0], [0.0];
      new;
      Stop(speed, timestamp);
      assert timestamp > 0 ==> steadyCount == (if compVolt < SteadyStateCriteria then 1 else 0);
      SetDirection(initialDirection);
      if timestamp > 0 && kp >= 0.0 && ki >= 0.0 && speedVolt >= 0.0 {
        StartsOff(timestamp);
      } else if timestamp > 0 && kp > 0.0 && ki >= 0.0 && speedVolt <= -DeadBand {
        StartsDriven(timestamp);
      }
    }

    /** The compensator has taken exactly one step, with the adjusted error over the given time, from a voltage of 0. */
    ghost predicate AfterFirstStep(timestamp: nat)
      reads this, piControl
    {
      && piControl.Valid()
      && piControl.Samples == [Sample(adjErrorVolt, timestamp)]
      && piControl.compensateError == piControl.Output(adjErrorVolt, piControl.accError)
      && compVolt == Clamp(0.0 + piControl.compensateError)
    }

    /** After that step with gains that are not negative and an adjusted error of at most 0, the voltage is 0. */
    lemma StartsOff(timestamp: nat)
      requires AfterFirstStep(timestamp)
      requires piControl.Kp >= 0.0 && piControl.Ki >= 0.0 && adjErrorVolt <= 0.0
      ensures compVolt == 0.0
    {
      StepFromRestIsOff(piControl.Kp, piControl.Ki, adjErrorVolt, timestamp,
                     piControl.accError, piControl.compensateError);
    }

    /** After that step with a positive proportional gain and an adjusted error beyond the dead-band, the voltage is positive. */
    lemma StartsDriven(timestamp: nat)
      requires AfterFirstStep(timestamp)
      requires piControl.Kp > 0.0 && piControl.Ki >= 0.0 && adjErrorVolt >= DeadBand
      ensures compVolt > 0.0
    {
      StepFromRestDrives(piControl.Kp, piControl.Ki, adjErrorVolt, timestamp,
                        piControl.accError, piControl.compensateError);
    }

    /**
     * One control cycle on the encoder sample (speed, timestamp). The
     * direction latch and the error computation always run; the
     * compensator, the output and the steady detector only run when the
     * timestamp is later than the last accepted one.
     */
    method Run(speed: real, timestamp: nat) returns (isSteady: bool)
      requires Valid()
      modifies this, piControl
      ensures Valid()
      ensures ratedRPM == old(ratedRPM) && continuousSteadyCriteria == old(continuousSteadyCriteria)
      ensures motorSetDirection == old(motorSetDirection)
      ensures this.speed == speed && thisTime == timestamp && speedVolt == speed * 100.0 / ratedRPM
      ensures (motorCurrentDirection, refVolt) ==
        Latch(old(motorCurrentDirection), old(motorSetDirection), old(compVolt), old(refVolt))
      ensures (pin1, pin2) ==
        if old(motorCurrentDirection) != old(motorSetDirection) && old(compVolt) == 0.0
        then PinLevels(old(motorSetDirection)) else old((pin1, pin2))
      ensures errorVolt == refVolt * 100.0 - speedVolt && adjErrorVolt == AdjustError(errorVolt)
      ensures timestamp > old(prevTime) ==>
        && piControl.Samples == old(piControl.Samples) + [Sample(adjErrorVolt, timestamp - old(prevTime))]
        && piControl.compensateError == piControl.Output(adjErrorVolt, piControl.accError)
        && compVolt == Clamp(old(compVolt) + piControl.compensateError)
        && prevTime == timestamp && Accepted == old(Accepted) + [timestamp]
        && Powers == old(Powers) + [compVolt] && prevPower == compVolt
        && steadyCount == (if Abs(compVolt - old(prevPower)) < SteadyStateCriteria then old(steadyCount) + 1 else 0)
        && (isSteady <==> steadyCount >= continuousSteadyCriteria && compVolt < SaturatedPower)
      ensures timestamp <= old(prevTime) ==>
        && !isSteady && unchanged(piControl)
        && compVolt == old(compVolt) && enableDuty == old(enableDuty)
        && prevTime == old(prevTime) && Accepted == old(Accepted)
        && steadyCount == old(steadyCount) && prevPower == old(prevPower) && Powers == old(Powers)
    {
      UpdateSpeedData(speed, timestamp);
      ProcessInput();
      assert unchanged(piControl) && unchanged(this`compVolt, this`prevTime, this`Accepted, this`Powers);
      isSteady := false;
      if thisTime > prevTime {
        isSteady := Compensate();
      }
    }

    /**
     * The fresh-sample part of a cycle: steps the compensator with the
     * adjusted error over the time since the last accepted sample, adds its
     * output to the compensation voltage, clamps that to [0, 100], writes it
     * to the enable output as a duty, accepts the timestamp and runs the
     * steady detector.
     */
    method Compensate() returns (isSteady: bool)
      requires Valid() && thisTime > prevTime
      modifies this`compVolt, this`enableDuty, this`prevTime, this`Accepted,
               this`steadyCount, this`prevPower, this`Powers, piControl
      ensures Valid()
      ensures piControl.Samples == old(piControl.Samples) + [Sample(adjErrorVolt, thisTime - old(prevTime))]
      ensures piControl.compensateError == piControl.Output(adjErrorVolt, piControl.accError)
      ensures piControl.accError == old(piControl.accError) + Increment(Sample(adjErrorVolt, thisTime - old(prevTime)))
      ensures compVolt == Clamp(old(compVolt) + piControl.compensateError)
      ensures prevTime == thisTime && Accepted == old(Accepted) + [thisTime]
      ensures Powers == old(Powers) + [compVolt] && prevPower == compVolt
      ensures steadyCount ==
        if Abs(compVolt - old(prevPower)) < SteadyStateCriteria then old(steadyCount) + 1 else 0
      ensures isSteady <==> steadyCount >= continuousSteadyCriteria && compVolt < SaturatedPower
    {
      var timeStep := thisTime - prevTime;
      var comp := piControl.CompensateSignal(adjErrorVolt, timeStep);
      Drive(comp);
      AcceptTime();
      isSteady := CheckSteady();
    }

    /** Adds the compensator output to the compensation voltage, clamps it to [0, 100] and writes it to the enable output as a duty. */
    method Drive(comp: real)
      modifies this`compVolt, this`enableDuty
      ensures compVolt == Clamp(old(compVolt) + comp)
      ensures DriveValid()
    {
      compVolt := compVolt + comp;
      if compVolt > 100.0 {
        compVolt := 100.0;
      } else if compVolt < 0.0 {
        compVolt := 0.0;
      }
      enableDuty := compVolt / 100.0;
    }

    /** Makes the current timestamp the previous one. */
    method AcceptTime()
      requires ClockValid() && thisTime > prevTime
      modifies this`prevTime, this`Accepted
      ensures ClockValid()
      ensures prevTime == thisTime && Accepted == old(Accepted) + [thisTime]
    {
      prevTime := thisTime;
      Accepted := Accepted + [thisTime];
      assert Accepted[..|Accepted| - 1] == old(Accepted);
    }

    /** A control cycle with the reference forced to 0, which ramps the drive down. */
    method Stop(speed: real, timestamp: nat)
      requires Valid()
      modifies this, piControl
      ensures Valid()
      ensures ratedRPM == old(ratedRPM) && continuousSteadyCriteria == old(continuousSteadyCriteria)
      ensures motorSetDirection == old(motorSetDirection)
      ensures motorCurrentDirection ==
        Latch(old(motorCurrentDirection), old(motorSetDirection), old(compVolt), 0.0).0
      ensures (pin1, pin2) ==
        if old(motorCurrentDirection) != old(motorSetDirection) && old(compVolt) == 0.0
        then PinLevels(old(motorSetDirection)) else old((pin1, pin2))
      ensures this.speed == speed && thisTime == timestamp && speedVolt == speed * 100.0 / ratedRPM
      ensures refVolt == 0.0 && errorVolt == -speedVolt && adjErrorVolt == AdjustError(-speedVolt)
      ensures timestamp > old(prevTime) ==>
        && piControl.Samples == old(piControl.Samples) + [Sample(adjErrorVolt, timestamp - old(prevTime))]
        && piControl.compensateError == piControl.Output(adjErrorVolt, piControl.accError)
        && compVolt == Clamp(old(compVolt) + piControl.compensateError)
        && prevTime == timestamp && Accepted == old(Accepted) + [timestamp]
        && Powers == old(Powers) + [compVolt] && prevPower == compVolt
        && steadyCount == (if Abs(compVolt - old(prevPower)) < SteadyStateCriteria then old(steadyCount) + 1 else 0)
      ensures timestamp <= old(prevTime) ==>
        && unchanged(piControl) && compVolt == old(compVolt) && prevTime == old(prevTime)
        && Accepted == old(Accepted) && Powers == old(Powers)
        && steadyCount == old(steadyCount) && prevPower == old(prevPower)
    {
      refVolt := 0.0;
      var _ := Run(speed, timestamp);
    }

    /** Drives the two direction pins to opposite levels for the direction and records it as requested. */
    method SetDirection(direction: Direction)
      modifies this`pin1, this`pin2, this`motorSetDirection
      ensures motorSetDirection == direction
      ensures (pin1, pin2) == PinLevels(direction) && pin1 != pin2
    {
      if direction == Clockwise {
        pin1, pin2 := false, true;
      } else {
        pin1, pin2 := true, false;
      }
      motorSetDirection := direction;
    }

    method SetRefVolt(refVolt: real)
      requires Valid()
      modifies this`refVolt
      ensures Valid() && this.refVolt == refVolt
    {
      this.refVolt := refVolt;
    }

    function GetCurrentDirection(): (d: Direction)
      reads this
      ensures d == motorCurrentDirection
    {
      motorCurrentDirection
    }

    /** Flips the requested direction; the driven one follows at the next cycle that finds the drive at 0. */
    method ChgDirection()
      modifies this`motorSetDirection
      ensures motorSetDirection == Flip(old(motorSetDirection))
      ensures motorSetDirection != old(motorSetDirection)
    {
      if motorSetDirection == Clockwise {
        motorSetDirection := C_Clockwise;
      } else if motorSetDirection == C_Clockwise {
        motorSetDirection := Clockwise;
      }
    }

    /** Stores the encoder sample and maps the speed onto the 0 to 100 scale of rated speed. */
    method UpdateSpeedData(speed: real, timestamp: nat)
      requires Valid()
      modifies this`speed, this`speedVolt, this`thisTime
      ensures Valid()
      ensures this.speed == speed && thisTime == timestamp
      ensures speedVolt == speed * 100.0 / ratedRPM
      ensures speedVolt * ratedRPM == speed * 100.0
    {
      this.speed := speed;
      speedVolt := this.speed * 100.0 / ratedRPM;
      thisTime := timestamp;
    }

    /**
     * The direction latch followed by the error computation: the error is
     * the reference on the 0 to 100 scale minus the measured speed, then
     * saturated to plus or minus 2 and snapped to 0 inside the dead-band.
     */
    method ProcessInput()
      requires Valid()
      modifies this`motorCurrentDirection, this`motorSetDirection, this`refVolt,
               this`errorVolt, this`adjErrorVolt, this`pin1, this`pin2
      ensures Valid()
      ensures motorSetDirection == old(motorSetDirection)
      ensures (motorCurrentDirection, refVolt) ==
        Latch(old(motorCurrentDirection), old(motorSetDirection), compVolt, old(refVolt))
      ensures (pin1, pin2) ==
        if old(motorCurrentDirection) != old(motorSetDirection) && compVolt == 0.0
        then PinLevels(motorSetDirection) else old((pin1, pin2))
      ensures errorVolt == refVolt * 100.0 - speedVolt
      ensures adjErrorVolt == AdjustError(errorVolt)
    {
      if motorCurrentDirection != motorSetDirection {
        if compVolt == 0.0 {
          motorCurrentDirection := motorSetDirection;
          SetDirection(motorCurrentDirection);
        } else {
          refVolt := 0.0;
        }
      }

      errorVolt := refVolt * 100.0 - speedVolt;
      adjErrorVolt := AdjustError(errorVolt);
    }

    method SetRatedRPM(ratedRPM: real)
      requires Valid()
      requires ratedRPM != 0.0
      modifies this`ratedRPM
      ensures Valid() && this.ratedRPM == ratedRPM
    {
      this.ratedRPM := ratedRPM;
    }

    method SetSteadyCriteria(continuousSteadyCriteria: nat)
      requires Valid()
      modifies this`continuousSteadyCriteria
      ensures Valid() && this.continuousSteadyCriteria == continuousSteadyCriteria
    {
      this.continuousSteadyCriteria := continuousSteadyCriteria;
    }

    function ReadComp(): (c: real)
      reads this, piControl
      requires Valid()
      ensures 0.0 <= c <= 100.0
      ensures c == compVolt
    {
      compVolt
    }

    function ReadSpeed(): (s: real)
      reads this
      ensures s == speedVolt
    {
      speedVolt
    }

    function ReadError(): (e: real)
      reads this
      ensures e == errorVolt
    {
      errorVolt
    }

    function ReadAdjError(): (a: real)
      reads this, piControl
      requires Valid()
      ensures a == AdjustError(ReadError())
      ensures -SaturationBound <= a <= SaturationBound
      ensures a == 0.0 || DeadBand <= Abs(a)
    {
      adjErrorVolt
    }

    function ReadRefRPM(): (rpm: real)
      reads this, piControl
      requires Valid()
      ensures rpm / ratedRPM == refVolt
    {
      refVolt * ratedRPM
    }

    /**
     * The steady counter step: one more steady cycle when the compensation
     * voltage moved by less than the criterion since the last check, else 0;
     * steady is reported once the count reaches the configured number of
     * cycles while the drive is below saturation.
     */
    method CheckSteady() returns (steady: bool)
      requires SteadyValid()
      modifies this`steadyCount, this`prevPower, this`Powers
      ensures SteadyValid() && Powers == old(Powers) + [compVolt]
      ensures steadyCount ==
        if Abs(compVolt - old(prevPower)) < SteadyStateCriteria then old(steadyCount) + 1 else 0
      ensures prevPower == compVolt
      ensures steady <==> steadyCount >= continuousSteadyCriteria && compVolt < SaturatedPower
    {
      if Abs(compVolt - prevPower) < SteadyStateCriteria {
        steadyCount := steadyCount + 1;
      } else {
        steadyCount := 0;
      }

      prevPower := compVolt;
      Powers := Powers + [compVolt];
      assert Powers[..|Powers| - 1] == old(Powers);

      steady := steadyCount >= continuousSteadyCriteria && compVolt < SaturatedPower;
    }

    function GetSteadyCount(): (n: nat)
      reads this
      requires SteadyValid()
      ensures n == SteadyRun(Powers)
    {
      steadyCount
    }
  }
}
