/**
 * The two cooperative tasks of main.py and the bumper interrupt, as pure functions on
 * a snapshot of everything they touch. One call of InnerPass is one invocation of the
 * inner_loop_task generator (up to its next yield), one call of OuterPass one invocation
 * of outer_loop_task, and BumperPass one run of bumper_isr. The hardware inputs a pass
 * reads (clock, counters, IMU registers, line sensors) arrive as one Readings value.
 */
module TaskLogic {
  import opened Pid
  import opened Kinematics
  import opened Qtrx
  import opened QuadratureEncoder
  import opened MotorDriver
  import opened Bno055
  import opened Maneuver

  /** Controller gains and limits of main.py. */
  const KP_INNER: real := 0.3
  const KI_INNER: real := 0.9
  const KD_INNER: real := 0.02
  const KP_OUTER_V: real := 1.5
  const KI_OUTER_V: real := 0.2
  const KD_OUTER_V: real := 0.05
  const KP_OUTER_YAW: real := 3.0
  const KI_OUTER_YAW: real := 0.15
  const KP_LINE: real := 3.0
  const KI_LINE: real := 0.15
  const KD_LINE: real := 0.1

  /** Periods of the two loops in seconds, as passed to update. */
  const INNER_DT: real := 0.01
  const OUTER_DT: real := 0.03
  /** Forward speed of line following (ft/s); speed and yaw rate of the recovery arc. */
  const CRUISE_SPEED: real := 0.4
  const ARC_SPEED: real := 1.0
  const ARC_YAW_RATE: real := 0.95
  /** The centroid the line controller steers to, and the black count that marks the finish line. */
  const LINE_SETPOINT: real := 3.5
  const CROSSING_COUNT: int := 7
  /** Weight of the previous yaw rate in the outer loop's filter (0: no filtering). */
  const YAW_FILTER_ALPHA: real := 0.0

  /** The IMU's yaw rate in rad/s: 1/16 degree per second per count, times pi/180. */
  function YawRateRadians(data: seq<byte>): (w: real)
    requires |data| == 2
    ensures w * 180.0 == ReadYawRate(data) * PI
  {
    ReadYawRate(data) * PI / 180.0
  }

  /** What the hardware reports during one pass. */
  datatype Readings = Readings(
    nowMs: int,               // time.ticks_ms()
    nowUs: int,               // time.ticks_us(), read by both encoder updates
    counterLeft: int,         // the encoder timers' counters
    counterRight: int,
    yawBytes: seq<byte>,      // GYR_DATA_Z
    headingBytes: seq<byte>,  // EUL_DATA_X
    lineRaw: seq<int>)        // the QTRX discharge times

  /** outer_loop_task either computes new targets or waits, holding them, while a recovery runs. */
  datatype OuterPhase = Computing | Waiting(left: real, right: real)

  /** Every variable the tasks and the interrupt read or write. */
  datatype RobotState = RobotState(
    leftDrive: Drive,
    rightDrive: Drive,
    leftEncoder: EncoderState,
    rightEncoder: EncoderState,
    outerV: PidState,
    outerYaw: PidState,
    line: PidState,
    leftWheel: PidState,
    rightWheel: PidState,
    leftMotorSpeed: real,     // the two shares
    rightMotorSpeed: real,
    callRoundBlock: bool,
    lastTriggerTime: int,
    roundBlock: RoundBlock,
    roundBlockStart: int,
    crossedLine: bool,
    finalStep: bool,
    finish: Finish,           // final_step_state of the inner task
    initialHeading: real,
    previousFilteredYaw: real,
    outerPhase: OuterPhase)

  /**
   * A pass can run: the finish sequence has not ended the run (reaching Done raises the
   * exception that stops the scheduler), and the readings suit the state: counters in
   * range, two IMU bytes each, the microsecond clock advanced past both encoders' last update.
   */
  predicate Fits(s: RobotState, rd: Readings) {
    && s.finish != Done
    && IsCounter(rd.counterLeft) && IsCounter(rd.counterRight)
    && IsCounter(s.leftEncoder.prevPosition) && IsCounter(s.rightEncoder.prevPosition)
    && rd.nowUs > s.leftEncoder.currentTime && rd.nowUs > s.rightEncoder.currentTime
    && |rd.yawBytes| == 2 && |rd.headingBytes| == 2
  }

  /** What every reachable state satisfies. */
  ghost predicate Inv(s: RobotState) {
    && IsCounter(s.leftEncoder.prevPosition) && IsCounter(s.rightEncoder.prevPosition)
    && 0.0 <= s.leftDrive.pwm <= 100.0 && 0.0 <= s.rightDrive.pwm <= 100.0
    && IntegralBounded(s.outerV) && IntegralBounded(s.outerYaw) && IntegralBounded(s.line)
    && IntegralBounded(s.leftWheel) && IntegralBounded(s.rightWheel)
    && (!s.callRoundBlock ==> s.roundBlock == Idle)
    && (s.crossedLine ==> s.finalStep)
    && (s.finish != Start ==> s.crossedLine)
  }

  /**
   * The state once main.py's globals are set up: controllers with their gains (the yaw
   * controller takes Kd_outer_v, not Kd_outer_yaw), shares 0, motors at 0 percent,
   * encoders referenced to the counters now, the initial heading in degrees. The
   * direction pins start at whatever level the pin set-up leaves, given here.
   */
  function InitialState(dirLeft: bool, dirRight: bool, counterLeft: int, counterRight: int, nowUs: int, headingBytes: seq<byte>): (s: RobotState)
    requires IsCounter(counterLeft) && IsCounter(counterRight) && |headingBytes| == 2
    ensures Inv(s)
  {
    RobotState(
      Drive(dirLeft, 0.0), Drive(dirRight, 0.0),
      EncoderState(0, counterLeft, 0, 0.0, nowUs, nowUs),
      EncoderState(0, counterRight, 0, 0.0, nowUs, nowUs),
      PidState(KP_OUTER_V, KI_OUTER_V, KD_OUTER_V, 0.0, 0.0, 10.0, 10.0),
      PidState(KP_OUTER_YAW, KI_OUTER_YAW, KD_OUTER_V, 0.0, 0.0, 50.0, 50.0),
      PidState(KP_LINE, KI_LINE, KD_LINE, 0.0, 0.0, 10.0, 10.0),
      PidState(KP_INNER, KI_INNER, KD_INNER, 0.0, 0.0, 100.0, 100.0),
      PidState(KP_INNER, KI_INNER, KD_INNER, 0.0, 0.0, 100.0, 100.0),
      0.0, 0.0,
      false, 0, Idle, 0,
      false, false, Start,
      ReadHeading(headingBytes) as real / 16.0,
      0.0, Computing)
  }

  // ---------------------------------------------------------------- bumper interrupt

  function BumperPass(s: RobotState, now: int): RobotState {
    var t := OnBumper(Trigger(s.callRoundBlock, s.lastTriggerTime), now);
    s.(callRoundBlock := t.callRoundBlock, lastTriggerTime := t.lastTriggerTime)
  }

  // ---------------------------------------------------------------- inner task

  /** What the next invocation of the inner task does. */
  datatype InnerMode = Tracking | Recovering | Finishing

  /**
   * Once the finish sequence has made its first pass it owns the task for good;
   * before that a pending recovery comes first, then the finish, then line tracking.
   */
  function Mode(s: RobotState): InnerMode {
    if s.finish != Start then Finishing
    else if s.callRoundBlock then Recovering
    else if s.finalStep && s.crossedLine then Finishing
    else Tracking
  }

  /** The state a pass leaves (motors aside) and the set_duty calls it makes, in order. */
  datatype Plan = Plan(state: RobotState, commands: seq<Command>)

  /** Drive the motors through the plan's set_duty calls. */
  function Commit(p: Plan): RobotState {
    p.state.(leftDrive := NextDriveAll(p.state.leftDrive, Lefts(p.commands)),
             rightDrive := NextDriveAll(p.state.rightDrive, Rights(p.commands)))
  }

  /** A pass with one pair of set_duty calls drives each motor once. */
  lemma CommitOne(p: Plan)
    requires |p.commands| == 1
    ensures Commit(p) == p.state.(leftDrive := NextDrive(p.state.leftDrive, p.commands[0].left),
                                   rightDrive := NextDrive(p.state.rightDrive, p.commands[0].right))
  {
    var ls, rs := Lefts(p.commands), Rights(p.commands);
    assert ls[1..] == [] && rs[1..] == [];
    assert NextDriveAll(p.state.leftDrive, ls) == NextDriveAll(NextDrive(p.state.leftDrive, ls[0]), ls[1..]);
    assert NextDriveAll(p.state.rightDrive, rs) == NextDriveAll(NextDrive(p.state.rightDrive, rs[0]), rs[1..]);
  }

  /** A pass with no set_duty call leaves the motors alone. */
  lemma CommitNone(p: Plan)
    requires p.commands == []
    ensures Commit(p) == p.state
  {
    assert Lefts(p.commands) == [] && Rights(p.commands) == [];
  }

  /** A pass with two pairs of set_duty calls drives each motor twice, in order. */
  lemma CommitTwo(p: Plan)
    requires |p.commands| == 2
    ensures Commit(p) == p.state.(
      leftDrive := NextDrive(NextDrive(p.state.leftDrive, p.commands[0].left), p.commands[1].left),
      rightDrive := NextDrive(NextDrive(p.state.rightDrive, p.commands[0].right), p.commands[1].right))
  {
    var ls, rs := Lefts(p.commands), Rights(p.commands);
    var l1, r1 := NextDrive(p.state.leftDrive, ls[0]), NextDrive(p.state.rightDrive, rs[0]);
    assert ls[1..][1..] == [] && rs[1..][1..] == [];
    assert NextDriveAll(p.state.leftDrive, ls) == NextDriveAll(l1, ls[1..]);
    assert NextDriveAll(l1, ls[1..]) == NextDriveAll(NextDrive(l1, ls[1]), ls[1..][1..]);
    assert NextDriveAll(p.state.rightDrive, rs) == NextDriveAll(r1, rs[1..]);
    assert NextDriveAll(r1, rs[1..]) == NextDriveAll(NextDrive(r1, rs[1]), rs[1..][1..]);
  }

  /** get_speed: the wheel speed with the sign flipped. */
  function WheelSpeed(e: EncoderState): real {
    -e.speed
  }

  /** Both encoders' get_speed calls. */
  function ReadWheels(s: RobotState, rd: Readings): (r: RobotState)
    requires Fits(s, rd)
  {
    s.(leftEncoder := EncoderStep(s.leftEncoder, rd.counterLeft, rd.nowUs),
       rightEncoder := EncoderStep(s.rightEncoder, rd.counterRight, rd.nowUs))
  }

  /** The two wheel controllers towards the given targets, their outputs clamped and sent. */
  function WheelPlan(s: RobotState, setLeft: real, setRight: real, measLeft: real, measRight: real): (p: Plan)
    ensures |p.commands| == 1 && CommandsInRange(p.commands)
  {
    var l := PidStep(s.leftWheel, setLeft, measLeft, INNER_DT);
    var r := PidStep(s.rightWheel, setRight, measRight, INNER_DT);
    Plan(s.(leftWheel := l.next, rightWheel := r.next), [Command(ClampDuty(l.output), ClampDuty(r.output))])
  }

  /** Line tracking: the wheel controllers chase the targets the outer task last published. */
  function TrackPlan(s: RobotState, rd: Readings): Plan
    requires Fits(s, rd)
  {
    var e := ReadWheels(s, rd);
    WheelPlan(e, s.leftMotorSpeed, s.rightMotorSpeed, WheelSpeed(e.leftEncoder), WheelSpeed(e.rightEncoder))
  }

  /** The recovery arc: its own speed and yaw-rate loop, at the inner period. */
  function ArcPlan(s: RobotState, rd: Readings): Plan
    requires Fits(s, rd)
  {
    var e := ReadWheels(s, rd);
    var wl, wr := WheelSpeed(e.leftEncoder), WheelSpeed(e.rightEncoder);
    var v := PidStep(e.outerV, ARC_SPEED, LinearVelocity(wl, wr), INNER_DT);
    var y := PidStep(e.outerYaw, ARC_YAW_RATE, YawRateRadians(rd.yawBytes), INNER_DT);
    var w := CalculateMotorSpeeds(v.output, y.output);
    WheelPlan(e.(outerV := v.next, outerYaw := y.next), w.left, w.right, wl, wr)
  }

  /** One pass of the recovery loop; leaving it clears call_round_block and sets final_step. */
  function RecoveryPlan(s: RobotState, rd: Readings): Plan
    requires Fits(s, rd) && s.callRoundBlock
  {
    var isLine := IsLine(rd.lineRaw);
    var q := SequencerStep(Sequencer(s.callRoundBlock, s.roundBlock, s.roundBlockStart), rd.nowMs, isLine);
    var p := if s.roundBlock == Arc then ArcPlan(s, rd) else Plan(s, RoundBlockCommands(s.roundBlock, isLine));
    Plan(p.state.(callRoundBlock := q.active, roundBlock := q.state, roundBlockStart := q.start,
                  finalStep := s.finalStep || !q.active),
         p.commands)
  }

  /** One pass of the finish sequence. */
  function FinishPlan(s: RobotState, rd: Readings): Plan
    requires Fits(s, rd)
  {
    var matched := HeadingMatched(s.initialHeading, ReadHeading(rd.headingBytes));
    var f := FinishStep(FinishTimer(s.finish, s.roundBlockStart), rd.nowMs, matched);
    Plan(s.(finish := f.state, roundBlockStart := f.start),
         FinishCommands(s.finish, rd.nowMs - s.roundBlockStart, matched))
  }

  function InnerPlan(s: RobotState, rd: Readings): Plan
    requires Fits(s, rd)
  {
    match Mode(s)
    case Tracking => TrackPlan(s, rd)
    case Recovering => RecoveryPlan(s, rd)
    case Finishing => FinishPlan(s, rd)
  }

  /** One invocation of inner_loop_task. */
  function InnerPass(s: RobotState, rd: Readings): RobotState
    requires Fits(s, rd)
  {
    Commit(InnerPlan(s, rd))
  }

  // ---------------------------------------------------------------- outer task

  datatype Targets = Targets(state: RobotState, wheels: WheelSpeeds)

  /**
   * The controller half of outer_loop_task: the speed loop holds 0.4 ft/s; the line loop
   * (run only when the centroid is positive, else its output is 0) gives the yaw-rate
   * target, and the decoupling turns both outputs into wheel targets.
   */
  function OuterControl(s: RobotState, centroid: real, v: real, filteredYaw: real): Targets {
    var lineStep := if centroid > 0.0 then PidStep(s.line, LINE_SETPOINT, centroid, OUTER_DT) else PidResult(s.line, 0.0);
    var vStep := PidStep(s.outerV, CRUISE_SPEED, v, OUTER_DT);
    var yawStep := PidStep(s.outerYaw, lineStep.output, filteredYaw, OUTER_DT);
    Targets(s.(line := lineStep.next, outerV := vStep.next, outerYaw := yawStep.next),
            CalculateMotorSpeeds(vStep.output, yawStep.output))
  }

  /** The filtered yaw rate: with alpha 0 it is the measured rate itself. */
  function FilteredYaw(previous: real, measured: real): (f: real)
    ensures YAW_FILTER_ALPHA == 0.0 ==> f == measured
  {
    YAW_FILTER_ALPHA * previous + (1.0 - YAW_FILTER_ALPHA) * measured
  }

  /**
   * The computing half of outer_loop_task: read the wheels, the yaw rate and the line,
   * mark the finish line (a frame with at least 7 black sensors after a recovery), then
   * run the controllers.
   */
  function OuterCompute(s: RobotState, rd: Readings): Targets
    requires Fits(s, rd)
  {
    var e := ReadWheels(s, rd);
    var t := Thresholded(rd.lineRaw);
    var filtered := FilteredYaw(s.previousFilteredYaw, YawRateRadians(rd.yawBytes));
    var sensed := e.(previousFilteredYaw := filtered,
                     crossedLine := s.crossedLine || (s.finalStep && Sum(t) >= CROSSING_COUNT));
    OuterControl(sensed, Centroid(t), LinearVelocity(WheelSpeed(e.leftEncoder), WheelSpeed(e.rightEncoder)), filtered)
  }

  /**
   * One invocation of outer_loop_task. Targets computed while a recovery runs are held
   * and published once it has ended, in an invocation that computes nothing.
   */
  function OuterPass(s: RobotState, rd: Readings): RobotState
    requires Fits(s, rd)
  {
    match s.outerPhase
    case Computing =>
      var o := OuterCompute(s, rd);
      if s.callRoundBlock then o.state.(outerPhase := Waiting(o.wheels.left, o.wheels.right))
      else o.state.(leftMotorSpeed := o.wheels.left, rightMotorSpeed := o.wheels.right)
    case Waiting(l, r) =>
      if s.callRoundBlock then s
      else s.(leftMotorSpeed := l, rightMotorSpeed := r, outerPhase := Computing)
  }

  // ---------------------------------------------------------------- properties

  lemma InitialIsTracking(dirLeft: bool, dirRight: bool, counterLeft: int, counterRight: int, nowUs: int, headingBytes: seq<byte>)
    requires IsCounter(counterLeft) && IsCounter(counterRight) && |headingBytes| == 2
    ensures Mode(InitialState(dirLeft, dirRight, counterLeft, counterRight, nowUs, headingBytes)) == Tracking
  {
  }

  lemma BumperKeepsInv(s: RobotState, now: int)
    requires Inv(s)
    ensures Inv(BumperPass(s, now))
    ensures BumperPass(s, now).finish == s.finish
  {
  }

  lemma InnerKeepsInv(s: RobotState, rd: Readings)
    requires Inv(s) && Fits(s, rd)
    ensures Inv(InnerPass(s, rd))
  {
    var p := InnerPlan(s, rd);
    InnerCommandsInRange(s, rd);
    PwmStaysInRange(s.leftDrive, Lefts(p.commands));
    PwmStaysInRange(s.rightDrive, Rights(p.commands));
    KeepsIntegrals(s, rd);
  }

  lemma OuterKeepsInv(s: RobotState, rd: Readings)
    requires Inv(s) && Fits(s, rd)
    ensures Inv(OuterPass(s, rd))
  {
  }

  /** Every duty the inner task sends lies in [-100, 100], so the motor driver never drops one. */
  lemma InnerCommandsInRange(s: RobotState, rd: Readings)
    requires Fits(s, rd)
    ensures CommandsInRange(InnerPlan(s, rd).commands)
  {
  }

  /** After a pass that sent anything, each motor runs at the last duty sent to it. */
  lemma MotorsFollowLastCommand(s: RobotState, rd: Readings)
    requires Fits(s, rd)
    requires InnerPlan(s, rd).commands != []
    ensures var cs := InnerPlan(s, rd).commands;
            && SignedDuty(InnerPass(s, rd).leftDrive) == cs[|cs| - 1].left
            && SignedDuty(InnerPass(s, rd).rightDrive) == cs[|cs| - 1].right
  {
    var cs := InnerPlan(s, rd).commands;
    InnerCommandsInRange(s, rd);
    LastAcceptedDutyWins(s.leftDrive, Lefts(cs));
    LastAcceptedDutyWins(s.rightDrive, Rights(cs));
  }

  lemma KeepsIntegrals(s: RobotState, rd: Readings)
    requires Inv(s) && Fits(s, rd)
    ensures var r := InnerPass(s, rd);
            IntegralBounded(r.outerV) && IntegralBounded(r.outerYaw) && IntegralBounded(r.line)
            && IntegralBounded(r.leftWheel) && IntegralBounded(r.rightWheel)
  {
  }

  /** The inner task only reads the shares; it never writes them nor the outer task's held targets. */
  lemma InnerNeverWritesShares(s: RobotState, rd: Readings, now: int)
    requires Fits(s, rd)
    ensures InnerPass(s, rd).leftMotorSpeed == s.leftMotorSpeed
    ensures InnerPass(s, rd).rightMotorSpeed == s.rightMotorSpeed
    ensures InnerPass(s, rd).outerPhase == s.outerPhase && BumperPass(s, now).outerPhase == s.outerPhase
  {
  }

  /**
   * While call_round_block is set (or the finish runs) the inner task does not read the
   * shares: a pass from states that differ only in the shares ends in states that differ
   * only in them.
   */
  lemma SharesIgnoredOutsideTracking(s: RobotState, rd: Readings, left: real, right: real)
    requires Fits(s, rd) && (s.callRoundBlock || Mode(s) != Tracking)
    ensures InnerPass(s.(leftMotorSpeed := left, rightMotorSpeed := right), rd)
         == InnerPass(s, rd).(leftMotorSpeed := left, rightMotorSpeed := right)
  {
    var s' := s.(leftMotorSpeed := left, rightMotorSpeed := right);
    var p, p' := InnerPlan(s, rd), InnerPlan(s', rd);
    assert Mode(s') == Mode(s);
    if Mode(s) == Recovering {
      RecoveryIgnoresShares(s, rd, left, right);
    }
    assert p' == Plan(p.state.(leftMotorSpeed := left, rightMotorSpeed := right), p.commands);
  }

  /** A recovery pass neither reads nor writes the shares. */
  lemma RecoveryIgnoresShares(s: RobotState, rd: Readings, left: real, right: real)
    requires Fits(s, rd) && s.callRoundBlock
    ensures var p := RecoveryPlan(s, rd);
            var p' := RecoveryPlan(s.(leftMotorSpeed := left, rightMotorSpeed := right), rd);
            p' == Plan(p.state.(leftMotorSpeed := left, rightMotorSpeed := right), p.commands)
  {
    var s' := s.(leftMotorSpeed := left, rightMotorSpeed := right);
    if s.roundBlock == Arc {
      assert ArcPlan(s', rd) == Plan(ArcPlan(s, rd).state.(leftMotorSpeed := left, rightMotorSpeed := right), ArcPlan(s, rd).commands);
    }
  }

  /** While a recovery runs, the outer task publishes nothing. */
  lemma OuterHoldsSharesDuringRecovery(s: RobotState, rd: Readings)
    requires Fits(s, rd) && s.callRoundBlock
    ensures OuterPass(s, rd).leftMotorSpeed == s.leftMotorSpeed
    ensures OuterPass(s, rd).rightMotorSpeed == s.rightMotorSpeed
  {
  }

  /** With no recovery pending, a computing pass publishes exactly the decoupled controller outputs. */
  lemma OuterPublishesTargets(s: RobotState, rd: Readings)
    requires Fits(s, rd) && !s.callRoundBlock && s.outerPhase == Computing
    ensures var o := OuterCompute(s, rd).wheels;
            var r := OuterPass(s, rd);
            && WheelSpeeds(r.leftMotorSpeed, r.rightMotorSpeed) == o
            && (r.leftMotorSpeed + r.rightMotorSpeed) / 2.0 * WHEEL_RADIUS == LinearVelocity(o.left, o.right)
            && r.outerPhase == Computing
  {
    var o := OuterCompute(s, rd).wheels;
    DecouplingSurjective(o);
  }

  /**
   * Targets computed while a recovery was pending are held, and published unchanged by
   * the first outer pass after the recovery ends (the inner task and the interrupt never
   * touch the held pair): after a recovery the inner task tracks wheel targets computed
   * before it began.
   */
  lemma HeldTargetsPublishedAfterRecovery(s: RobotState, rd1: Readings, t: RobotState, rd2: Readings)
    requires Fits(s, rd1) && s.callRoundBlock && s.outerPhase == Computing
    requires t.outerPhase == OuterPass(s, rd1).outerPhase && !t.callRoundBlock && Fits(t, rd2)
    ensures var held := OuterCompute(s, rd1).wheels;
            var r := OuterPass(t, rd2);
            && WheelSpeeds(r.leftMotorSpeed, r.rightMotorSpeed) == held
            && r.outerPhase == Computing
  {
  }

  /** Once the finish sequence has started, every later pass of either task keeps it running. */
  lemma FinishIsSticky(s: RobotState, rd: Readings, now: int)
    requires Fits(s, rd) && Mode(s) == Finishing
    ensures InnerPass(s, rd).finish != Start && Mode(InnerPass(s, rd)) == Finishing
    ensures s.finish != Start ==> Mode(OuterPass(s, rd)) == Finishing && Mode(BumperPass(s, now)) == Finishing
  {
  }

  /**
   * The finish sequence begins only after a completed recovery and a full black frame:
   * final_step is set only when the recovery leaves its last state with the line in sight.
   */
  lemma FinishNeedsRecoveryAndCrossing(s: RobotState, rd: Readings)
    requires Inv(s) && Fits(s, rd)
    ensures Mode(s) == Finishing ==> s.finalStep && s.crossedLine
    ensures InnerPass(s, rd).finalStep && !s.finalStep
            ==> s.callRoundBlock && s.roundBlock == FindLine && IsLine(rd.lineRaw)
                && rd.nowMs - s.roundBlockStart > FIND_LINE_MS
    ensures OuterPass(s, rd).crossedLine && !s.crossedLine
            ==> s.finalStep && s.outerPhase == Computing && Sum(Thresholded(rd.lineRaw)) >= CROSSING_COUNT
  {
  }
}
