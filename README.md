# Romi line follower — a Dafny model of its control core

The Romi robot follows a black line with a cascaded controller. Two cooperative tasks share its motors:

- The **inner task** (10 ms period) reads both quadrature encoders and runs one PI speed loop per wheel. It turns the outputs into PWM duties for the two DRV8838-style motor drivers.
- The **outer task** (30 ms period) has three parts:
  - It computes the line centroid from eight QTR-X reflectance sensors.
  - It runs the line PID, whose output is the yaw-rate setpoint.
  - It runs the forward-velocity and yaw-rate PIDs, which are fed by the encoders and the BNO055 gyroscope.

  It turns (v, yaw rate) into wheel speeds and publishes them in two shared variables. The inner task reads those variables.

A bumper interrupt, debounced at 200 ms, starts a recovery sequence in the inner task:

1. Reverse.
2. Turn.
3. A closed-loop arc.
4. Find the line.

That recovery sets a "final step" flag. Once the outer task then sees a line crossing (at least seven sensors dark), the inner task runs the finish sequence:

1. Forward.
2. Stop.
3. Turnaround until the heading matches the start heading.
4. Straight.
5. Done, which stops the program.

## Layout

The modules follow the source files.

- `results.dfy`: Option and Result.
- `pid.dfy` (main.py `PIDController`): the PID step as a pure function `PidStep`, and a class `PidController` whose `Update` is proved against it.
- `kinematics.dfy` (main.py `calculate_motor_speeds` and the linear-velocity formula): the differential-drive decoupling and its inverse.
- `qtrx.dfy` (qtrx.py): normalisation, thresholding and the centroid. The centroid is computed by a loop method proved against a recursive definition.
- `encoder.dfy` (encoder.py): the 16-bit counter wrap-around correction, the speed filter, and a class `Encoder` proved against the pure step `EncoderStep`.
- `motor.dfy` (Romi-Files/motor.py): the signed duty as a pure step `NextDrive`, and a class `Motor` proved against it.
- `bno055.dfy` (Romi-Files/imu.py): register decoding for heading, yaw rate, Euler angles and calibration status, mode selection by name, and saving and restoring calibration over a modelled register file.
- `maneuver.dfy` (main.py lines 62-279): the debounced bumper trigger, the duty clamp, and the two sequencers. Each sequencer is a pure transition function, with timing lemmas over arbitrary runs.
- `tasks.dfy` (main.py task bodies): the whole robot as one value `RobotState`.
  - One invocation of each generator is one pure function: `InnerPass` for the inner task, `OuterPass` for the outer task, `BumperPass` for the ISR.
  - The commands sent to the motors are a `Plan`, applied by `Commit`.
  - The lemmas about invariants, share gating and stickiness of the finish mode are stated here.
- `robot.dfy` (main.py): a class `Robot` that holds the motor, encoder and controller objects and the task state. Its `InnerStep`, `OuterStep` and `BumperIsr` update those objects in place, and each is proved to produce exactly the pure pass.

## Model

| member | source | states |
|---|---|---|
| Pid.ClampSymmetric | main.py:110 | the integral is clamped to [-limit, limit]; it is unchanged inside the band and pinned to the nearer bound outside it |
| Pid.Derivative | main.py:112-114 | the derivative term is (error - previous error)/dt when dt > 0, and 0 otherwise |
| Pid.Saturate | main.py:120-123 | the output is clamped to [-out_max, out_max] and unchanged inside it; the second `if` gives -out_max when u ≤ -out_max |
| Pid.PidStep | main.py:106-124 | one update keeps the integral within ±integral_limit and the output within ±out_max, stores the new error, and changes nothing but the integral and the previous error |
| Pid.PidStepUnclamped | main.py:106-124 | away from the clamps the integral accumulates error·dt; without saturation the output is kp·error + ki·integral + kd·(error − previous error)/dt for dt > 0, and kp·error + ki·integral for dt ≤ 0 |
| Pid.Outputs | main.py:106-124 | a run of updates yields one output per call |
| Pid.RunKeepsBounds | main.py:106-124 | over any sequence of (setpoint, measurement, dt) calls, the integral stays within its limit, the limits never change, and every output lies within ±out_max |
| Pid.PidController.constructor | main.py:91-98 | a new controller stores the gains and limits, with zero integral and zero previous error |
| Pid.PidController.SetGains | main.py:101-104 | only kp, ki and kd change |
| Pid.PidController.Update | main.py:106-124 | the new state and the returned output are exactly `PidStep`, so the output and integral bounds hold |
| Kinematics.CalculateMotorSpeeds | main.py:76-79 | the mean wheel speed is v/R and the wheel-speed difference is (W/R)·yaw_rate |
| Kinematics.LinearVelocity | main.py:194 | the linear velocity is R times the mean of the wheel speeds |
| Kinematics.ChassisOf | main.py:76-79 | it inverts the decoupling: v from the mean and yaw rate from the difference |
| Kinematics.DecouplingInvertible | main.py:76-79 | recovering (v, yaw rate) from the computed wheel speeds gives back the inputs exactly |
| Kinematics.DecouplingSurjective | main.py:76-79 | every pair of wheel speeds is produced by exactly one (v, yaw rate) |
| Qtrx.NormalizeReading | qtrx.py:67-76 | the result lies in [0, 1]; it is 0 at or below min and 1 at or above max, and linear in between |
| Qtrx.NormalizeMonotone | qtrx.py:67-76 | normalisation is monotone in the reading |
| Qtrx.ThresholdReading | qtrx.py:78-87 | the result is 1 exactly when the reading is at least the threshold, and 0 otherwise |
| Qtrx.WeightedSumBounds | qtrx.py:96-101 | for 0/1 readings, 0 ≤ Σr ≤ N and 0 ≤ Σi·r ≤ (N-1)·Σr |
| Qtrx.CentroidInRange | qtrx.py:96-101 | when some sensor sees the line, the centroid lies in [0, N-1] |
| Qtrx.CalculateCentroid | qtrx.py:89-101 | the loop computes Σi·r / Σr; it returns 0 when the sum is not positive, and a value in [0, N-1] for 0/1 readings that see the line |
| Qtrx.CentroidExample | qtrx.py:96-101 | the centroid of [0,0,1,1,0,0,0,0] is 2.5 |
| Qtrx.AllZeroCentroid | qtrx.py:101 | all-zero readings give sum 0 and the sentinel centroid 0 |
| Qtrx.QuotientAboveOne | qtrx.py:104-109 | for a positive sum, the centroid exceeds 1 exactly when the weighted sum exceeds the sum |
| Qtrx.Thresholded | qtrx.py:106-107 | normalising and thresholding the raw frame gives 0/1 values, each 1 exactly when the normalised value reaches the default threshold 0.9 |
| Qtrx.IsLineIff | qtrx.py:104-109 | `is_line` holds exactly when some sensor is dark and the centroid exceeds 1 |
| Qtrx.LeftPairWeight | qtrx.py:96-101 | when only sensors 0 and 1 can be dark, the weighted sum is at most the sum |
| Qtrx.EdgeLineIsNoLine | qtrx.py:104-109 | a line seen only by the two leftmost sensors is reported as no line |
| QuadratureEncoder.WrapDelta | encoder.py:47-51 | the corrected delta differs from the raw delta by a multiple of 65536; deltas within half the range are kept, and corrected deltas lie within ±32768 |
| QuadratureEncoder.WrapDeltaShortest | encoder.py:47-51 | the corrected delta is the shortest of all deltas congruent to the raw one |
| QuadratureEncoder.WrapDeltaExample | encoder.py:47-51 | a raw delta of -65000 is corrected to +536 |
| QuadratureEncoder.Filter | encoder.py:62 | the filtered speed moves from the old speed toward the raw speed by the factor (1-alpha), and stays between the two |
| QuadratureEncoder.RawSpeed | encoder.py:57-59 | the raw speed times the interval in seconds is the delta in radians |
| QuadratureEncoder.EncoderStep | encoder.py:34-62 | one update: the delta is the wrapped counter difference, position accumulates it, the previous count and the times shift, and the speed is filtered |
| QuadratureEncoder.PositionTracksCounter | encoder.py:39-54 | over any run of updates, the accumulated position changes by the counter's change modulo 65536 |
| QuadratureEncoder.Encoder.constructor | encoder.py:10-32 | a new encoder starts at position 0, delta 0 and speed 0, with the current counter and time |
| QuadratureEncoder.Encoder.Update | encoder.py:34-62 | the new state is exactly `EncoderStep` of the old one |
| QuadratureEncoder.Encoder.GetPosition | encoder.py:64-68 | it returns the negated accumulated position |
| QuadratureEncoder.Encoder.GetDelta | encoder.py:70-74 | it returns the last corrected delta |
| QuadratureEncoder.Encoder.Zero | encoder.py:76-81 | the position becomes 0 and the reference count becomes the current counter; nothing else changes |
| QuadratureEncoder.Encoder.GetSpeed | encoder.py:91-96 | it performs one update and returns the negated filtered speed |
| MotorDriver.NextDrive | Romi-Files/motor.py:41-59 | a duty in [-100, 100] gives PWM \|duty\| with DIR low when forward and high when reversing; a zero duty keeps DIR; an out-of-range duty changes nothing; the PWM stays in [0, 100] |
| MotorDriver.PwmStaysInRange | Romi-Files/motor.py:41-59 | after any sequence of set_duty calls, the PWM stays in [0, 100] |
| MotorDriver.LastAcceptedDutyWins | Romi-Files/motor.py:41-59 | after a sequence ending with a valid duty, the signed duty applied is that last duty |
| MotorDriver.Motor.constructor | Romi-Files/motor.py:17-39 | a new driver starts with PWM 0 and enabled (SLP high) |
| MotorDriver.Motor.SetDuty | Romi-Files/motor.py:41-59 | the pins follow `NextDrive`; the enable pin is untouched |
| MotorDriver.Motor.Enable | Romi-Files/motor.py:61-66 | SLP goes high and the drive is unchanged |
| MotorDriver.Motor.Disable | Romi-Files/motor.py:68-73 | SLP goes low and the drive is unchanged |
| Bno055.ParseCalibStatus | Romi-Files/imu.py:59-74 | the four 2-bit levels are each in 0..3 and repack into the status byte |
| Bno055.ParsePackRoundTrip | Romi-Files/imu.py:64-67 | packing and then parsing any four levels gives them back |
| Bno055.FullyCalibratedByte | Romi-Files/imu.py:245-259 | all four levels are 3 exactly when the status byte is 0xFF |
| Bno055.Int16LE | Romi-Files/imu.py:127 | the little-endian pair decodes into the int16 range, two's complement, negative exactly when the high byte's top bit is set |
| Bno055.EncodeInt16LE | Romi-Files/imu.py:127 | every int16 encodes to two bytes |
| Bno055.DecodeEncodeInt16 | Romi-Files/imu.py:127 | decoding an encoded int16 gives it back |
| Bno055.EncodeDecodeInt16 | Romi-Files/imu.py:127 | encoding a decoded byte pair gives the bytes back |
| Bno055.ReadHeading | Romi-Files/imu.py:117-129 | the heading word is the signed int16 of the two register bytes |
| Bno055.ReadYawRate | Romi-Files/imu.py:151-162 | the yaw rate is the signed z word divided by 16 (dps), within [-2048, 2048) |
| Bno055.Words3 | Romi-Files/imu.py:109 | six bytes decode into three int16 words that re-encode to those bytes |
| Bno055.ReadEulerAngles | Romi-Files/imu.py:97-115 | heading, roll and pitch are the little-endian int16 words of bytes 0-1, 2-3 and 4-5 |
| Bno055.ReadAngularVelocity | Romi-Files/imu.py:131-149 | x, y and z are the little-endian int16 words of bytes 0-1, 2-3 and 4-5; z/16 is the yaw rate |
| Bno055.Lower | Romi-Files/imu.py:45 | lower-casing keeps the length, leaves no capital letter, moves each capital up by 32 to its small letter and keeps every other character |
| Bno055.OpMode | Romi-Files/imu.py:44-57 | a known mode name (case-insensitive) writes its value to OPR_MODE; any other name is the invalid-mode error |
| Bno055.LowerIdempotent | Romi-Files/imu.py:45 | lower-casing twice is lower-casing once |
| Bno055.OpModeCaseInsensitive | Romi-Files/imu.py:44-57 | a mode name and its lower-case form select the same write |
| Bno055.OpModeNamesRoundTrip | Romi-Files/imu.py:44-57 | each accepted name maps to a value whose name is that name, and each named value is accepted |
| Bno055.OpModeExamples | Romi-Files/imu.py:44-57 | "NDOF" writes 0x0C, "imu" writes 0x08, and "config" is rejected |
| Bno055.ApplyWrite | Romi-Files/imu.py:81-92 | a register write replaces exactly the written range of the register file |
| Bno055.ApplyWrites | Romi-Files/imu.py:81-92 | a sequence of writes keeps the register file's size |
| Bno055.MemRead | Romi-Files/imu.py:196-200 | a read returns n bytes, the i-th being register reg + i |
| Bno055.ReadCalibrationData | Romi-Files/imu.py:189-202 | the calibration blob is the 22 registers starting at ACC_OFFSET_X_LSB |
| Bno055.CalibrationSegments | Romi-Files/imu.py:88-92 | the 22-byte blob splits into five writes: bytes 0-5 at the accel offsets, 6-11 at the mag offsets, 12-17 at the gyro offsets, 18-19 at the accel radius and 20-21 at the mag radius |
| Bno055.WriteCalibrationDataAsWritten | Romi-Files/imu.py:76-95 | a blob that is not 22 bytes is rejected with a length error |
| Bno055.AsWrittenNeverWrites | Romi-Files/imu.py:81-85 | as written, no blob ever produces a write; a 22-byte blob fails on the missing `set_mode` |
| Bno055.WriteCalibrationData | Romi-Files/imu.py:76-95 | the corrected routine fails exactly on a wrong length; otherwise it writes CONFIG mode, then the five segments of `CalibrationSegments` in order, then NDOF |
| Bno055.CalibrationRoundTrip | Romi-Files/imu.py:88-92 | restoring a blob and then reading the calibration back gives that blob, and leaves the sensor in NDOF |
| Maneuver.OnBumper | main.py:67-73 | the ISR changes the trigger exactly when no recovery is running and more than 200 ms have passed, and then it records the time and starts a recovery |
| Maneuver.SecondTriggerIgnored | main.py:70-73 | a second trigger within 200 ms of an accepted one changes nothing |
| Maneuver.ClampDuty | main.py:207-214 | the duty lies in [-100, 100]; it is unchanged inside and pinned outside |
| Maneuver.RoundBlockSucc | main.py:164-233 | the recovery states form the cycle 0→1→2→3→4→0 |
| Maneuver.RoundBlockNext | main.py:164-233 | a transition either stays or moves to the successor, never skips, and each gate holds exactly on its condition: >750 ms, >585 ms, >3500 ms, and >400 ms with the line seen |
| Maneuver.RoundBlockCommands | main.py:169-227 | recovery commands are valid duties; Idle, Arc and FindLine without a line send no open-loop command |
| Maneuver.SequencerStep | main.py:163-233 | one recovery step follows `RoundBlockNext`, the recovery ends exactly on FindLine→Idle, and the start time is reset on every other change |
| Maneuver.RunKeepsTiming | main.py:163-235 | over any run, each active state is entered no earlier than its cumulative minimum offset, and a finished recovery has lasted at least 5239 ms |
| Maneuver.LastIsLatest | main.py:163-235 | in a non-decreasing clock run, the last time is at least the first |
| Maneuver.RecoveryTiming | main.py:163-235 | a recovery can finish only 5239 ms after it starts; within the first 750 ms it is still reversing |
| Maneuver.FinishNext | main.py:240-277 | the finish sequence moves one state at a time: Start→Forward immediately, >1200 ms, >1000 ms, heading matched, >6600 ms; Done is final |
| Maneuver.FinishCommands | main.py:244-277 | finish commands are valid duties; leaving Turnaround or Straight sends a final stop |
| Maneuver.FinishStep | main.py:240-277 | one finish step follows `FinishNext` and resets the start time on each change except the step into Done |
| Maneuver.RunFinishKeepsTiming | main.py:240-279 | over any run, each finish state is entered no earlier than its cumulative minimum offset |
| Maneuver.FinishTiming | main.py:240-279 | Done is reached no sooner than (1200+1) + (1000+1) + (6600+1) = 8803 ms after the finish starts |
| Maneuver.FinishTimingReached | main.py:240-279 | the 8803 ms bound is reached: passes exactly at each gate end the run at 8803 ms |
| TaskLogic.YawRateRadians | main.py:195 | the yaw-rate feedback is the gyro z rate converted from degrees to radians |
| TaskLogic.InitialState | main.py:128-145 | the state at start-up satisfies the robot invariant |
| TaskLogic.CommitOne | main.py:290-304 | applying one command sets both motors through `set_duty` |
| TaskLogic.CommitNone | main.py:162-306 | a pass with no command leaves the motors untouched |
| TaskLogic.CommitTwo | main.py:265-277 | applying two commands performs their set_duty calls on each motor in order |
| TaskLogic.WheelPlan | main.py:286-304 | the wheel loops issue exactly one command, and its duties are within range |
| TaskLogic.FilteredYaw | main.py:328-329 | with alpha 0, the filtered yaw rate equals the measured one |
| TaskLogic.InitialIsTracking | main.py:159-162 | the robot starts in line tracking |
| TaskLogic.BumperKeepsInv | main.py:67-73 | the ISR keeps the robot invariant and never touches the finish sequence |
| TaskLogic.InnerKeepsInv | main.py:150-306 | every inner-task pass keeps the invariant: counters, PWM range, bounded integrals, recovery state only while recovering, crossing only after the final step, finish only after crossing |
| TaskLogic.OuterKeepsInv | main.py:309-363 | every outer-task pass keeps the invariant |
| TaskLogic.InnerCommandsInRange | main.py:162-306 | every duty the inner task sends is in [-100, 100] |
| TaskLogic.MotorsFollowLastCommand | main.py:162-306 | after an inner pass, each motor is driven at the last duty sent to it |
| TaskLogic.KeepsIntegrals | main.py:150-306 | inner passes keep every wheel-controller integral within its limit |
| TaskLogic.InnerNeverWritesShares | main.py:150-306 | the inner task and the ISR never write the shared wheel-speed variables or the outer task's phase |
| TaskLogic.SharesIgnoredOutsideTracking | main.py:163-235 | during a recovery or the finish sequence, the inner pass does not depend on the shared wheel speeds at all |
| TaskLogic.RecoveryIgnoresShares | main.py:163-235 | a recovery pass, the arc included, neither reads nor writes the shared wheel speeds: its commands are the same and its new state differs only in them |
| TaskLogic.OuterHoldsSharesDuringRecovery | main.py:356-361 | while a recovery runs, the outer task leaves the shared speeds untouched |
| TaskLogic.OuterPublishesTargets | main.py:350-361 | outside a recovery, the outer task publishes the wheel speeds it just computed |
| TaskLogic.HeldTargetsPublishedAfterRecovery | main.py:354-361 | targets computed while a recovery began are published at the first outer pass after it ends |
| TaskLogic.FinishIsSticky | main.py:237-279 | once the finish sequence starts, no inner, outer or ISR pass leaves it |
| TaskLogic.FinishNeedsRecoveryAndCrossing | main.py:229-342 | finishing implies final-step and crossing; final-step is set only by FindLine seeing the line after 400 ms; crossing is set only by the outer task with final-step and at least 7 dark sensors |
| RobotTasks.Robot.constructor | main.py:39-145 | the objects built at start-up form the initial robot state |
| RobotTasks.Robot.BumperIsr | main.py:67-73 | the ISR updates the trigger exactly as `BumperPass` |
| RobotTasks.Robot.ReadWheelSpeeds | main.py:282-283 | both encoders are updated and the negated filtered speeds returned |
| RobotTasks.Robot.DriveWheels | main.py:290-304 | the two wheel PIDs run and the clamped duties go to the motors, as `WheelPlan` |
| RobotTasks.Robot.TrackPass | main.py:281-306 | line tracking drives the wheels toward the shared targets, as `TrackPlan` |
| RobotTasks.Robot.ArcControl | main.py:185-217 | the arc's cascaded velocity and yaw loops drive the wheels, as `ArcPlan` |
| RobotTasks.Robot.RecoveryPass | main.py:163-235 | one recovery invocation, as `RecoveryPlan` |
| RobotTasks.Robot.ReversePass | main.py:169-175 | the Reverse branch, as `RecoveryPlan` |
| RobotTasks.Robot.TurnPass | main.py:177-183 | the Turn1 branch, as `RecoveryPlan` |
| RobotTasks.Robot.ArcPass | main.py:185-222 | the Arc branch, as `RecoveryPlan` |
| RobotTasks.Robot.FindLinePass | main.py:224-233 | the FindLine branch, as `RecoveryPlan` |
| RobotTasks.Robot.LineInSight | main.py:226-233 | the FindLine branch with the line in sight: keep turning, and after 400 ms end the recovery and set the final step, as `RecoveryPlan` |
| RobotTasks.Robot.FinishPass | main.py:239-279 | one finish invocation, as `FinishPlan` |
| RobotTasks.Robot.ForwardPass | main.py:244-250 | the Forward branch, as `FinishPlan` |
| RobotTasks.Robot.StopPass | main.py:252-258 | the Stop branch, as `FinishPlan` |
| RobotTasks.Robot.TurnaroundPass | main.py:260-268 | the Turnaround branch, as `FinishPlan` |
| RobotTasks.Robot.StopTurnaround | main.py:260-268 | the Turnaround pass that finds the heading within 0.5°: spin once, move to the last straight, stop both motors and restart the timer, as `FinishPlan` |
| RobotTasks.Robot.StraightPass | main.py:270-277 | the Straight branch, as `FinishPlan` |
| RobotTasks.Robot.InnerStep | main.py:150-306 | one inner-task invocation changes the robot exactly as `InnerPass`, so the invariant and gating lemmas apply to it |
| RobotTasks.Robot.ComputeTargets | main.py:320-341 | the outer task's sensing and control produce `OuterCompute`'s targets |
| RobotTasks.Robot.RunControllers | main.py:344-354 | the line, velocity and yaw PIDs and the decoupling, as `OuterControl` |
| RobotTasks.Robot.OuterStep | main.py:309-363 | one outer-task invocation changes the robot exactly as `OuterPass` |

## Behaviour kept as the code has it

- The yaw-rate controller is built with the velocity controller's derivative gain (`Kd_outer_v`).
- The line controller runs only when the centroid is positive. A centroid of 0, whether "no line" or a line under sensor 0, leaves the yaw setpoint at 0.
- The heading match in Turnaround compares headings in degrees (the heading word divided by 16) with a 0.5° tolerance and does not handle wrap-around.
- The comment at main.py:62 lists more recovery states than the code has. The model has the five the code uses.
- The docstring of `calculate_centroid` (qtrx.py:94) describes a "no line" value of None. The code returns 0, and so does the model.
- Leaving FindLine for Idle does not reset the recovery start time. Entering Done does not reset the finish start time.
- If an outer-task invocation computes targets while a recovery begins, it holds them. The first invocation after the recovery ends publishes those stale targets and computes nothing.

## Left out

- Hardware access is left out: `pyb` pins, timers and PWM channels, and the I2C transfers. The model works on the register bytes, counter values and raw sensor frames the hardware returns.
- The QTR-X discharge-timing reads (`read_sensor`, `read_all_sensors`) are left out. The raw frame is an input of each pass.
- The cotask scheduler and generator suspension are left out. Each task invocation is one method call.
- The ISR is modelled as running between invocations, never inside one.
- `ticks_ms`/`ticks_us` wrap-around is left out. Times are unbounded integers, and each invocation reads the clock once.
- Floating point is left out. Controller, kinematics and filter arithmetic is exact real arithmetic.
- QuadratureEncoder.Encoder.Update: a zero time interval would divide by zero in the source. The model requires the clock to advance.
- Bno055.Lower: only ASCII letters are case-folded.
- Qtrx.NormalizeReading: requires distinct bounds, so the division by zero that equal bounds would raise in the source is not modelled; every caller passes 0/1000 or 100/900.
- The `KeyboardInterrupt` handler, which re-creates the motors to stop them, is left out. The modelled run ends at Done, after the zero duties are sent.
- The interactive calibration loops (`calibrate`, `calibrate_2`) are left out, as are calibration save/load/auto-calibration files, `get_count`, UART and printing.
- MotorDriver.Motor.constructor: the source does not set the initial DIR pin level, so the model does not promise one.
- TaskLogic.InitialState: `final_step` only exists once the inner task first runs. The model starts it as false.
- TaskLogic.InnerPass: `is_line` reads the sensors again in the source. In the model one frame, an input of the inner pass, serves both the FindLine test and any re-read.

## Findings

| source | as written | input that shows it | evidently intended | confidence | as-written member | corrected member |
|---|---|---|---|---|---|---|
| Romi-Files/imu.py:85 | `write_calibration_data` calls `self.set_mode`, which the class does not define, so it raises before writing any register | any 22-byte calibration blob | switch to CONFIG mode, write the five offset/radius segments, then return to NDOF | not executed | Bno055.WriteCalibrationDataAsWritten / Bno055.AsWrittenNeverWrites | Bno055.WriteCalibrationData / Bno055.CalibrationRoundTrip |
