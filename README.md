# BLDC six-step commutation controller, modelled in Dafny

This project models the commutation engine of a controller for a three-phase brushless DC motor, as written in `lib/MotorControl/MotorControl.c`. The motor has three Hall-effect position sensors. Their levels form a 3-bit code, with sensor A as the most significant bit. A constant eight-entry table maps the code to the set of phases to energise. Each energised phase is driven with a PWM duty cycle derived from the commanded speed. The controller keeps three pieces of state: the commanded speed, a run flag and the duty cycle. Five operations use it: set speed, start, stop, get speed and the commutation update. Initialisation ends with a stop.

The model has three files:

- `Commutation.dfy` (module `Commutation`) holds the constant table, the Hall code and the table's properties: the invalid codes, the bit correspondence, distinctness, and one-phase steps along the rotation sequence.
- `MotorControl.dfy` (module `MotorControl`) holds the constants `MOTOR_MAX_RPM = 5000` and `PWM_RANGE = 1024`, the clamp and the truncating duty formula, and a value-level step function per operation (`Commutate`, `SetSpeedStep`, `StopStep`, `StartStep`). It also holds the class `Motor`, whose fields are the C module's static state plus three phase-output fields. Each method of `Motor` is proved to move its state exactly as the matching step function says. Its frame lists only the fields that the C function writes.
- `MotorProperties.dfy` (module `MotorProperties`) holds lemmas about the step functions. It proves the state invariant for every sequence of calls from power-on. For two call sequences on `Motor`, it proves the resulting outputs.

The hardware is abstracted as follows:

- A `softPwmWrite` to phase A, B or C becomes an assignment to `phaseA`, `phaseB` or `phaseC`.
- The three `digitalRead` calls become a `HallLevels` argument. It is passed to every operation that samples the sensors: set speed, start and update.
- The C `uint16_t` fields are the subset type `u16`. `isRunning` (a `uint8_t` used as a flag) is a `bool`.
- The duty product `rpm * PWM_RANGE` is computed in C `int`. `Duty` proves that it stays below 2^31 - 1. All operands are non-negative, so C's truncating division and Dafny's division agree.

Points where the code differs from what a reader might expect, and which the model keeps as written:

- `include/MotorControl.h:53-59` documents a 0/-1 return from `motorInit`. The code returns `void`, and on a failed setup it prints a message, returns and records nothing (`MotorControl.c:24-29`). The model therefore has no failure state, and `Start` is not gated.
- Codes 1, 2 and 4 drive one phase; codes 3, 5 and 6 drive two (`ValidPatternDrivesOneOrTwo`).
- Phase A follows bit 0 of the code, which is Hall sensor C. Phase C follows sensor A (`PatternFollowsSensors`).

## Model

| member | source | states |
|---|---|---|
| Commutation.HallCode | lib/MotorControl/MotorControl.c:86-89 | the code composed from the three sensor levels is below 8, and decoding it (bit 2 = A, bit 1 = B, bit 0 = C) gives back the levels, so distinct readings give distinct codes |
| Commutation.HallCodeOfDecode | lib/MotorControl/MotorControl.c:86-89 | every code 0..7 is the code of the levels its bits name (the composition is onto) |
| Commutation.InvalidCodesAllOff | lib/MotorControl/MotorControl.c:9-18 | the constant `CommutationTable` has eight rows, and codes 0 and 7 map to the all-off pattern |
| Commutation.PatternFollowsCodeBits | lib/MotorControl/MotorControl.c:9-18 | for codes 1..6, phase A/B/C is enabled exactly when bit 0/1/2 of the code is set; with the previous row this fixes every entry of `CommutationTable` |
| Commutation.PatternFollowsSensors | lib/MotorControl/MotorControl.c:86-96 | for a valid reading, phase A is driven iff sensor C is high, B iff B, and C iff A |
| Commutation.ValidPatternsDistinct | lib/MotorControl/MotorControl.c:9-18 | the six valid codes give six pairwise different patterns, none of them all-off |
| Commutation.ValidPatternDrivesOneOrTwo | lib/MotorControl/MotorControl.c:11-16 | every valid code energises at least one and at most two phases |
| Commutation.HallSequenceCoversValidCodes | lib/MotorControl/MotorControl.c:9-18 | the rotation order 1,3,2,6,4,5 lists each valid code exactly once and nothing else |
| Commutation.HallSequenceStepsOnePhase | lib/MotorControl/MotorControl.c:9-18 | adjacent patterns along 1,3,2,6,4,5 and back to 1 differ in exactly one phase |
| MotorControl.ClampSpeed | lib/MotorControl/MotorControl.c:53-58 | the stored speed is at most MOTOR_MAX_RPM and at most the request, and equals one of them: it is min(rpm, MOTOR_MAX_RPM), so over-range requests are capped rather than rejected |
| MotorControl.Duty | lib/MotorControl/MotorControl.c:59 | the product rpm * PWM_RANGE fits a 32-bit int; the duty is the truncated quotient (d * 5000 <= rpm * 1024 < (d + 1) * 5000); for an in-range speed it lies in 0..PWM_RANGE |
| MotorControl.Commutate | lib/MotorControl/MotorControl.c:82-97 | the value-level updateCommutation: it never changes speed, duty or run flag, and it keeps the state invariant |
| MotorControl.SetSpeedStep | lib/MotorControl/MotorControl.c:53-64 | the value-level motorSetSpeed: the speed becomes the clamped request, the duty that speed's duty (at most PWM_RANGE), the run flag is unchanged, and the invariant is kept |
| MotorControl.StopStep | lib/MotorControl/MotorControl.c:66-71 | the value-level motorStop: stopped and all phases 0, speed and duty kept, invariant kept |
| MotorControl.StartStep | lib/MotorControl/MotorControl.c:73-76 | the value-level motorStart: running, speed and duty kept, invariant kept |
| MotorControl.Motor.constructor | lib/MotorControl/MotorControl.c:20-22 | gives the power-on state `PowerOn` (speed 0, stopped, duty 0, outputs 0), which satisfies the invariant |
| MotorControl.Motor.Init | lib/MotorControl/MotorControl.c:49-50 | the successful setup path of initialisation: its effect is a stop, and the invariant is kept |
| MotorControl.Motor.SetSpeed | lib/MotorControl/MotorControl.c:53-64 | new state is the set-speed step of the old one (clamped speed, its duty, recommutation only when running); run flag unchanged; invariant kept |
| MotorControl.Motor.Stop | lib/MotorControl/MotorControl.c:66-71 | clears the run flag and writes 0 to all phases, touching nothing else; invariant kept |
| MotorControl.Motor.Start | lib/MotorControl/MotorControl.c:73-76 | sets the run flag then commutates once with the current duty; invariant kept |
| MotorControl.Motor.GetSpeed | lib/MotorControl/MotorControl.c:78-80 | returns the commanded speed, which is within MOTOR_MAX_RPM, and changes nothing |
| MotorControl.Motor.UpdateCommutation | lib/MotorControl/MotorControl.c:82-97 | the code built with successive bitwise ORs equals the Hall code; the new state is the commutation step of the old one; only phase outputs may change |
| MotorProperties.DutyExamples | lib/MotorControl/MotorControl.c:59 | duties of 0, 2500, 1000 and 5000 rpm are 0, 512, 204 and 1024 |
| MotorProperties.DutyMonotonic | lib/MotorControl/MotorControl.c:59 | a higher speed never gives a lower duty |
| MotorProperties.SetSpeedCapsSpeed | lib/MotorControl/MotorControl.c:53-63 | after set speed, the reported speed is min(rpm, MOTOR_MAX_RPM), the duty is that speed's duty, and the run flag is unchanged |
| MotorProperties.SetSpeedWhileStopped | lib/MotorControl/MotorControl.c:61-63 | when stopped, set speed leaves the phase outputs as they were |
| MotorProperties.SetSpeedWhileRunning | lib/MotorControl/MotorControl.c:58-63 | when running, set speed at once drives the current pattern with the new duty |
| MotorProperties.StopDeenergises | lib/MotorControl/MotorControl.c:66-71 | from any state stop clears the run flag and zeroes every phase, keeping speed and duty |
| MotorProperties.StartCommutates | lib/MotorControl/MotorControl.c:73-76 | start sets the run flag and drives the current pattern with the unchanged duty |
| MotorProperties.StartBeforeSetSpeedDrivesZero | lib/MotorControl/MotorControl.c:73-76 | a start right after initialisation runs with every phase at duty 0 |
| MotorProperties.CommutateWhenStopped | lib/MotorControl/MotorControl.c:83 | when stopped, the update changes nothing |
| MotorProperties.CommutateWhenRunning | lib/MotorControl/MotorControl.c:82-96 | when running, each phase gets the duty iff its bit in the pattern for code 4A+2B+C is set, else 0; speed, duty and run flag unchanged |
| MotorProperties.InvalidCodeKeepsRunning | lib/MotorControl/MotorControl.c:82-96 | codes 0 and 7 drive all phases to 0 while the run flag stays set |
| MotorProperties.CommutateCodes3And5 | lib/MotorControl/MotorControl.c:92-96 | code 3 drives phases A and B and code 5 drives A and C, each with the current duty, and the third phase gets 0 |
| MotorProperties.CommutateIdempotent | lib/MotorControl/MotorControl.c:82-97 | a second update with the same sensor levels leaves the same state |
| MotorProperties.PowerOnConsistent | lib/MotorControl/MotorControl.c:20-22 | the power-on state `PowerOn` (the zero static initialisers, outputs 0) satisfies the invariant |
| MotorProperties.ApplyKeepsConsistent | lib/MotorControl/MotorControl.c:53-97 | each single operation keeps the invariant |
| MotorProperties.RunKeepsConsistent | lib/MotorControl/MotorControl.c:53-97 | any sequence of operations keeps the invariant: speed within range, duty == Duty(speed), a stopped motor fully off, each phase 0 or the duty |
| MotorProperties.ReachableStatesSafe | lib/MotorControl/MotorControl.c:20-97 | in every state reachable from power-on, the duty is the function of the speed, a stopped motor is de-energised and no phase exceeds PWM_RANGE |
| MotorProperties.RunAppend | lib/MotorControl/MotorControl.c:53-97 | running a call sequence and then one more call equals applying that call to the state the sequence left |
| MotorProperties.StopAfterAnyRun | lib/MotorControl/MotorControl.c:66-71 | whatever sequence came first, a final stop leaves the motor stopped and de-energised |
| MotorProperties.ScenarioSetSpeedThenStart | lib/MotorControl/MotorControl.c:49-96 | init, set speed 1000, start at code 5: phases A and C at 204, B at 0, running |
| MotorProperties.ScenarioOverRangeThenStop | lib/MotorControl/MotorControl.c:53-80 | a request of 60000 rpm is reported as 5000, and a stop leaves all phases at 0 |

## Left out

- The wiringPi and softPwm calls (`wiringPiSetup`, `pinMode`, `softPwmCreate`, `pullUpDnControl`, `digitalRead`, `softPwmWrite`) are hardware I/O. Sensor reads are `HallLevels` arguments, and phase writes are assignments to the three output fields.
- The pin configuration of `motorInit` (`MotorControl.c:24-48`) is left out. Its failure path prints and returns without changing any state. The model starts from the state that the static initialisers and `softPwmCreate(…, 0, …)` give, which is all zeros. `Init` models the successful setup path, which ends in the stop. On failure `motorInit` returns before that stop (`MotorControl.c:26-29`); from power-on both paths leave the same state.
- MotorControl.Motor.Init, SetSpeed and Start require the invariant `Valid()` on entry. The C state is private to its module and begins in a valid state. Every operation keeps `Valid()` (`ReachableStatesSafe`), so no sequence of the modelled operations breaks it. The Dafny class's fields are public, unlike the C statics, so code outside this model could break it.
- MotorControl.Motor.SetSpeed takes its argument as an already-converted `uint16_t`. The C conversion of a wider caller value happens outside the controller.
- The demonstration program `src/main.c` (its ramp loops, signal handling and sleeps) and the test file `tests/test_main.c` are not part of this model. The test file calls a function that the controller does not define.
- The header promises things that the code does not implement, and they are not modelled: the 0/-1 return of `motorInit`, a self-test, soft ramping and rate limiting (`include/MotorControl.h:53-66`).
- Concurrency between an interrupt-driven update and the other operations is not modelled, because the code is plain sequential C with no synchronisation. There is no fault flag or counter for invalid Hall codes, because the code has none.
- The constants `MOTOR_VOLTAGE`, `NUM_POLES` and `PWM_FREQUENCY` and the pin numbers are not modelled. The control logic does not use them.
