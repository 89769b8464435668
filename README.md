# Motor velocity controller core, in Dafny

This project models the control loop of a firmware DC-motor velocity and
direction controller. Once per cycle the controller does the following:

- reads an encoder sample (speed in RPM, timestamp in microseconds);
- applies a safety latch that reverses the motor only when the drive is at 0;
- forms the speed error and saturates it with a dead-band;
- on a fresh timestamp only:
  - steps a PI/PID compensator;
  - clamps the compensation voltage to [0, 100];
  - writes it as a PWM duty;
  - runs a steady-state detector.

The model covers these parts:

- `averaging.dfy`, module `Averaging`: the fixed-capacity FIFO running
  average `MovingAverage<T, N>`. It is a class whose window is a `seq<real>`
  that `AddData` reassigns. It is specified by the functions `Sum`, `Mean` and
  `Window`, applied to a ghost history of every sample added.
- `integrator.dfy`, module `Integrator`: the shared integral term. This is the
  Riemann sum `Accumulated` of `error * micros / 1000000` over a ghost record
  of every step taken, with lemmas about it.
- `pi_control.dfy`, `pid_control.dfy` and `pid_control_smoothed.dfy`: the
  three compensators.
  - `PIcontrol`.
  - `PIDcontrol`, the variant the motor controller uses. Its derivative stage
    returns 0.
  - `PIDControl`. Ki is not applied in its output. Its derivative goes through
    a shared 3-sample moving average.

  Each is a class whose step method updates its fields in place. Each keeps
  the invariant that the accumulator equals `Accumulated` of its ghost
  history.
- `motor_control.dfy`, module `Motor`:
  - the pure pieces of the cycle: `Latch`, `AdjustError`, `Clamp`,
    `PinLevels`, `Flip` and the steady counter `SteadyRun`;
  - the class `MotorControl`, whose methods follow `run`, `stop`,
    `processInput`, `updateSpeedData`, `setDirection`, `chgDirection` and
    `checkSteady`.

  The encoder query becomes the `(speed, timestamp)` parameters. The pin
  levels and the PWM duty are ghost fields holding the last value written.
  The ghost sequences `Accepted` (accepted timestamps) and `Powers`
  (compensation voltage after each accepted cycle) carry the invariants:
  - accepted timestamps strictly increase;
  - the steady counter equals the length of the trailing steady run of
    `Powers`.

The constructor's comment at source/MotorControl.cpp:14 says its stop
cycle leaves the enable pin LOW. The model proves this when the gains are not
negative and the first scaled speed `speedVolt = speed * 100 / ratedRPM` is
not negative (for instance a non-negative speed with a positive rated speed).
It also proves the opposite on a first timestamp later than 0, with Kp > 0
and Ki >= 0, when that scaled speed is at most -0.1 (a negative speed, or a
positive speed with a negative rated speed): the zero reference then gives an
adjusted error of at least 0.1, and the stop cycle drives the motor. On a
first timestamp of 0 nothing is stepped and the output stays LOW. Whether the
encoder ever reports a negative speed is outside this model.

`float` and `double` are modelled as `real`, and `unsigned long long` and
`unsigned int` as `nat`.

## Model

| member | source | states |
|---|---|---|
| Averaging.Window | source/MovingAverage.h:50-59 | the window after a run of samples holds min(count, N) of them, and they are the most recent ones in order |
| Averaging.WindowStep | source/MovingAverage.h:50-59 | adding a sample appends it while the window is not full; once full, it evicts exactly the oldest sample and appends the new one (FIFO) |
| Averaging.AppendStep | source/MovingAverage.h:50-56 | while the window is not full, adding a sample appends it to the window |
| Averaging.EvictStep | source/MovingAverage.h:57-62 | once the window is full, adding a sample evicts the oldest one and appends the new one |
| Averaging.SumOfConstant | source/MovingAverage.h:52-54 | the sum of k copies of c is k times c |
| Averaging.MeanOfConstant | source/MovingAverage.h:46-65 | a window filled with one constant averages to that constant |
| Averaging.SumOf | source/MovingAverage.h:49-54 | the summing loop returns the front-to-back sum of the window |
| Averaging.AverageOf | source/MovingAverage.h:50-56 | the not-full branch's sum divided by the count is the mean of the window |
| Averaging.ScaledSumOf | source/MovingAverage.h:57-63 | the full branch's sum times the precomputed reciprocal 1/N is the mean of the window |
| Averaging.MovingAverage.constructor | source/MovingAverage.h:18-21 | N must be positive and odd; the window starts empty with value 0 |
| Averaging.MovingAverage.WithInitial | source/MovingAverage.h:39-44 | the window starts as [initialData] and the value is initialData |
| Averaging.MovingAverage.AddData | source/MovingAverage.h:46-65 | while not full: the list is old + [data] and the value is sum/size. When full: the list is old[1..] + [data] and the value is sum times 1/N. The length grows by one up to N and then stays at N; the last element is the new sample; the value is the mean of the last min(k, N) samples ever added |
| Averaging.MovingAverage.GetValue | source/MovingAverage.h:28-31 | reads the mean of the last min(k, N) samples, which is the sum of the last N divided by N once N have been added; state is unchanged |
| Averaging.MovingAverage.GetDataList | source/MovingAverage.h:24-27 | reads the window: at most N samples, the most recent ones, ending with the last sample added; state is unchanged |
| Integrator.AccumulatedSplit | source/PIcontrol.cpp:29 | the never-reset accumulator over two runs of steps is the sum of the two runs' contributions |
| Integrator.ConstantErrorIntegral | source/PIcontrol.cpp:29 | a constant error e held for T microseconds in total adds exactly e * T / 1000000, however the steps are split |
| Integrator.ZeroErrorKeepsIntegral | source/PIDcontrol.cpp:32 | any number of zero-error steps leave the accumulator where it was |
| PICompensator.PIcontrol.constructor | source/PIcontrol.cpp:4-7 | gains stored; error, accumulator, timestep and output start at 0 (the header's initialisers) |
| PICompensator.PIcontrol.CompensateSignal | source/PIcontrol.cpp:9-20 | records error and timestep; the accumulator grows by exactly error * timestep / 1000000 and stays the sum over all calls; returns and stores Kp * error + Ki * (new accumulator), with nothing carried over from the previous output; zero error leaves the accumulator unchanged and returns Ki * accumulator |
| PICompensator.PIcontrol.PSignal | source/PIcontrol.cpp:22-25 | the P term is 0 for zero error and non-negative for a non-negative gain and error |
| PICompensator.PIcontrol.ISignal | source/PIcontrol.cpp:27-31 | integrates the stored error over the stored timestep, keeps the accumulator equal to the Riemann sum and returns Ki times the new accumulator |
| PIDCompensator.PIDcontrol.constructor | source/PIDcontrol.cpp:4-7 | gains stored; all other state starts at 0 |
| PIDCompensator.PIDcontrol.CompensateSignal | source/PIDcontrol.cpp:9-23 | as the PI step, plus a derivative stage that adds 0. The output is exactly Kp * error + Ki * (new accumulator). Afterwards the previous error equals this call's error. Zero error leaves the integral unchanged |
| PIDCompensator.PIDcontrol.Output | source/PIDcontrol.cpp:9-23 | the control law: Kp * error + Ki * accumulator; zero error gives Ki * accumulator, and non-negative gains with a non-positive error and accumulator give a non-positive output |
| PIDCompensator.PIDcontrol.PSignal | source/PIDcontrol.cpp:25-28 | the P term is 0 for zero error and non-negative for a non-negative gain and error |
| PIDCompensator.PIDcontrol.ISignal | source/PIDcontrol.cpp:30-34 | integrates the stored error over the stored timestep, keeps the accumulator invariant and returns Ki times the new accumulator |
| PIDCompensator.PIDcontrol.DSignal | source/PIDcontrol.cpp:36-39 | the derivative stage contributes 0 in every state |
| SmoothedPIDCompensator.RawDerivative | source/PIDControl.cpp:23 | for a positive timestep, the raw derivative times the timestep is the error change times 1000000 |
| SmoothedPIDCompensator.PIDControl.constructor | source/PIDControl.cpp:8-11 | gains stored, state at 0, sharing a 3-sample smoothing window |
| SmoothedPIDCompensator.PIDControl.CompensateSignal | source/PIDControl.cpp:13-28 | needs timestep > 0. Adds error * timestep / 1000000 to the accumulator. Feeds exactly one raw derivative, taken against a previous error that stays 0, into the shared window. Returns Kp * error + accumulator + smoothed derivative, with Ki not applied. The smoothed derivative is the mean of the last min(k, 3) raw derivatives |
| SmoothedPIDCompensator.PIDControl.PSignal | source/PIDControl.cpp:30-33 | the P term is 0 for zero error and non-negative for a non-negative gain and error |
| SmoothedPIDCompensator.PIDControl.ISignal | source/PIDControl.cpp:35-39 | a second integration path: adds the stored error over the stored timestep to the same accumulator again and returns Ki times it |
| Motor.Flip | source/MotorControl.cpp:78-82 | the flipped direction always differs from the original |
| Motor.ChgDirectionTwice | source/MotorControl.cpp:78-82 | flipping twice is the identity |
| Motor.PinLevels | source/MotorControl.cpp:63-66 | the two direction pins always get opposite levels; pin 1 is high exactly for counter-clockwise |
| Motor.Latch | source/MotorControl.cpp:97-103 | the driven direction changes only when it differs from the requested one and the drive is at 0, and then it becomes the requested one. If they differ and the drive is not at 0, the reference is forced to 0. If they agree, nothing changes |
| Motor.AdjustError | source/MotorControl.cpp:110-115 | the adjusted error is 2 above 2, -2 below -2, 0 strictly inside (-0.1, 0.1), and the error itself otherwise. Hence it is always in [-2, 2], it is 0 exactly inside the dead-band, and it is never in (-0.1, 0) or (0, 0.1) |
| Motor.AdjustErrorMonotone | source/MotorControl.cpp:112-115 | a larger error never yields a smaller adjusted error |
| Motor.AdjustErrorIdempotent | source/MotorControl.cpp:112-115 | saturating an already adjusted error changes nothing |
| Motor.Clamp | source/MotorControl.cpp:33-34 | the compensation voltage clamp lands in [0, 100], is the identity inside it, and gives 100 above it and 0 below it |
| Motor.SteadyRunIsTrailingRun | source/MotorControl.cpp:140 | the steady counter counts the consecutive steady transitions at the end of the voltage history. The transition just before them is not steady |
| Motor.ConstantPowerIsSteady | source/MotorControl.cpp:140 | a compensation voltage held constant over the last k accepted cycles gives a steady count of at least k |
| Motor.StepFromRestIsOff | source/MotorControl.cpp:32-34 | one compensator step from the zero state with non-negative gains and an error of at most 0 leaves the clamped voltage at 0 |
| Motor.StepFromRestDrives | source/MotorControl.cpp:32-34 | one compensator step from the zero state with a positive Kp, a non-negative Ki and an error of at least 0.1 leaves a positive voltage |
| Motor.StrictlyIncreasingOrdered | source/MotorControl.cpp:27-39 | in the accepted-timestamp history every earlier timestamp is smaller than every later one |
| Motor.MotorControl.constructor | source/MotorControl.cpp:8-16 | builds the PID compensator with the given gains and runs one stop cycle on the first encoder sample. Afterwards the reference is 0, speedVolt = speed * 100 / ratedRPM, the error is -speedVolt and the adjusted error its saturation, the driven direction is still the zero value Clockwise (processInput latches the requested one later, at voltage 0), the requested direction is the initial one and the pins show it. On timestamp 0 nothing was stepped: the voltage, duty, previous power and steady counter are 0 and the voltage history is [0]. On a later timestamp the compensator took exactly the step (adjusted error, timestamp), its output is Kp * adjusted error + Ki * accumulator, and the voltage is that output clamped. The voltage history is [0, voltage], the previous power is the voltage and the steady counter is 1 when that voltage is below 0.01, else 0. The enable output is LOW when the gains and the scaled speed speed * 100 / ratedRPM are not negative, and driven on a first timestamp later than 0 when Kp > 0, Ki >= 0 and the scaled speed is at most -0.1. All invariants hold |
| Motor.MotorControl.StartsOff | source/MotorControl.cpp:14 | after the constructor's single compensator step with non-negative gains and a non-positive adjusted error, the voltage is 0 |
| Motor.MotorControl.StartsDriven | source/MotorControl.cpp:14 | after that step with Kp > 0, Ki >= 0 and an adjusted error of at least 0.1, the voltage is positive |
| Motor.MotorControl.Run | source/MotorControl.cpp:21-44 | always stores the sample, applies the latch and computes and saturates the error. On a timestamp later than the last accepted one it does the following: steps the compensator with the adjusted error and the positive time step; sets the voltage to clamp(old voltage + Kp * adjusted error + Ki * new accumulator), the compensator's output; accepts the timestamp; steps the steady counter; returns steady exactly when count >= criteria and voltage < 99.99. Otherwise the voltage, duty, accepted time, steady counter, previous power and compensator stay unchanged and it returns false. Invariants kept: voltage in [0, 100] and duty = voltage / 100, pins opposite, accepted timestamps strictly increasing, counter = trailing steady run, compensator accumulator = its Riemann sum |
| Motor.MotorControl.Compensate | source/MotorControl.cpp:27-41 | the fresh-sample block of a cycle: one compensator step with the adjusted error over thisTime - prevTime > 0, whose output is Kp * adjusted error + Ki * new accumulator; the voltage becomes clamp(old voltage + output), the duty voltage / 100; the timestamp is accepted and the steady counter stepped, with the invariants kept |
| Motor.MotorControl.Drive | source/MotorControl.cpp:32-37 | the voltage becomes clamp(old voltage + output), in [0, 100], and the enable duty is voltage / 100 |
| Motor.MotorControl.AcceptTime | source/MotorControl.cpp:39 | the current timestamp, later than the previous one, becomes the previous one and is appended to the strictly increasing accepted history |
| Motor.MotorControl.Stop | source/MotorControl.cpp:46-49 | forces the reference to 0 and runs one cycle, so the error becomes -speedVolt and the adjusted error is its saturation. On a fresh timestamp the compensator is stepped with the adjusted error, the voltage becomes clamp(old voltage + Kp * adjusted error + Ki * new accumulator), the timestamp and voltage are appended to their histories, the previous power becomes the voltage and the steady counter is incremented when the voltage moved by less than 0.01, else reset to 0. On a stale one the voltage, accepted time and history, voltage history, counter and compensator stay as they were. The latch and the invariants are as for Run |
| Motor.MotorControl.SetDirection | source/MotorControl.cpp:63-70 | drives the two pins to opposite levels for the direction and records it as the requested direction; the driven direction is untouched |
| Motor.MotorControl.SetRefVolt | source/MotorControl.cpp:72-74 | sets the reference and keeps the invariants |
| Motor.MotorControl.GetCurrentDirection | source/MotorControl.cpp:76 | reads the driven direction without changing state |
| Motor.MotorControl.ChgDirection | source/MotorControl.cpp:78-82 | the requested direction becomes the other one |
| Motor.MotorControl.UpdateSpeedData | source/MotorControl.cpp:84-89 | stores the sample and maps the speed onto the 0 to 100 scale of rated speed (speedVolt * ratedRPM = speed * 100), keeping the invariants |
| Motor.MotorControl.ProcessInput | source/MotorControl.cpp:91-116 | applies the direction latch, writing the pins only when it reverses. Then it sets error = reference * 100 - speedVolt and adjusted error = AdjustError(error), keeping the invariants |
| Motor.MotorControl.SetRatedRPM | source/MotorControl.cpp:118 | sets the rated speed (non-zero) and keeps the invariants |
| Motor.MotorControl.SetSteadyCriteria | source/MotorControl.cpp:120-122 | sets the consecutive-cycle threshold and keeps the invariants |
| Motor.MotorControl.ReadComp | source/MotorControl.cpp:124 | the compensation voltage read is always in [0, 100] |
| Motor.MotorControl.ReadSpeed | source/MotorControl.cpp:126 | reads the scaled speed without changing state |
| Motor.MotorControl.ReadError | source/MotorControl.cpp:128 | reads the unsaturated error without changing state |
| Motor.MotorControl.ReadAdjError | source/MotorControl.cpp:130 | the adjusted error read is the saturation of the error read, lies in [-2, 2] and is 0 or at least 0.1 in magnitude |
| Motor.MotorControl.ReadRefRPM | source/MotorControl.cpp:132-134 | the reference in RPM divided by the rated speed is the reference fraction |
| Motor.MotorControl.CheckSteady | source/MotorControl.cpp:135-147 | the counter increments when the voltage moved by less than 0.01 and resets to 0 otherwise; previous power becomes the voltage; returns true exactly when count >= criteria and voltage < 99.99; the counter stays equal to the trailing steady run |
| Motor.MotorControl.GetSteadyCount | source/MotorControl.cpp:149-151 | the raw counter is the length of the trailing steady run of the voltage history |

## Left out

- The pin and PWM peripherals are not modelled. They are `MotorControl`
  members (source/MotorControl.cpp:11, written at lines 37 and 65-66); the
  model records the last level or duty written to them in ghost fields only.
- Interrupts, tickers, threads and the display are not modelled. They live
  in main.cpp, which is not part of this model.
- The encoder driver is not modelled. EncodedMotor is not part of this model;
  its `getSpeed` query becomes the `(speed, timestamp)` parameters of `Run`,
  `Stop` and the constructor.
- The change-dispatch cell and the debounce guard that feed operator input
  into the loop are not modelled: EventVariable is not part of this model.
- The debug monitor (source/DebugMonitor.cpp, source/DebugMonitor.h) is not
  modelled. It only prints.
- source/Functions.h is not modelled: it declares functions whose bodies are
  not part of this model.
- The reference smoothing window at source/MotorControl.cpp:6 is not modelled.
  It is declared but never fed.
- Floating point is modelled as exact reals. Rounding, infinities, NaN and the
  `double` reciprocal in MovingAverage are not modelled.
- The `abs` at source/MotorControl.cpp:140 is modelled as real absolute value.
  If overload resolution picks the integer `abs`, the source truncates the
  difference first, and this model does not capture that.
- `steadyCount` is an `unsigned int` and can wrap after 2^32 consecutive
  steady cycles. The model uses `nat` and does not wrap.
- Motor.MotorControl.SetRatedRPM: requires a non-zero rated speed. The source
  accepts 0, and the next cycle then divides by it. The constructor has the
  same precondition, and a non-zero rated speed is a class invariant.
- SmoothedPIDCompensator.PIDControl.CompensateSignal: requires timestep > 0.
  The source divides by the timestep, which gives an infinity or NaN for 0.
- Motor.MotorControl.constructor: the no-argument `setDirection()` it calls
  has no visible declaration. Its direction is a constructor parameter.
  source/MotorControl.h does not match MotorControl.cpp and is not part of
  this model, so the fields it does not declare start at 0; the two
  direction fields therefore start at `Clockwise`, the enum's first value. The
  consecutive-cycle threshold has no initialiser in the source, so it is a
  constructor parameter here.
- The doc comment at source/MovingAverage.h:13 says N "cannot be odd". The
  static_asserts at lines 19-20 require it to be odd. The model follows the
  asserts.
- source/MovingAverage.h:42 calls the default constructor on a temporary,
  which has no effect. The static_asserts on N are compile-time checks; the
  model states them as constructor preconditions.
