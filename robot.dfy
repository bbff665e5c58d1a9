/**
 * The robot of main.py as one object: the motor, encoder and controller objects the
 * module creates, the two shares and the globals the tasks and the bumper interrupt
 * update. Each method performs, in place, one invocation of a task as TaskLogic
 * describes it.
 */
module RobotTasks {
  import opened Pid
  import opened Kinematics
  import opened Qtrx
  import opened QuadratureEncoder
  import opened MotorDriver
  import opened Bno055
  import opened Maneuver
  import opened TaskLogic

  class Robot {
    const motorLeft: Motor
    const motorRight: Motor
    const encoderLeft: Encoder
    const encoderRight: Encoder
    const outerV: PidController
    const outerYaw: PidController
    const lineController: PidController
    const leftWheel: PidController
    const rightWheel: PidController
    const initialHeading: real
    var leftMotorSpeed: real
    var rightMotorSpeed: real
    var callRoundBlock: bool
    var lastTriggerTime: int
    var roundBlock: RoundBlock
    var roundBlockStart: int
    var crossedLine: bool
    var finalStep: bool
    var finish: Finish
    var previousFilteredYaw: real
    var outerPhase: OuterPhase

    /** No two of the device and controller objects are the same object. */
    ghost predicate Distinct()
      reads this
    {
      && motorLeft != motorRight && encoderLeft != encoderRight
      && outerV != outerYaw && outerV != lineController && outerV != leftWheel && outerV != rightWheel
      && outerYaw != lineController && outerYaw != leftWheel && outerYaw != rightWheel
      && lineController != leftWheel && lineController != rightWheel
      && leftWheel != rightWheel
    }

    /** The abstract value of the robot. */
    function State(): RobotState
      reads this, motorLeft, motorRight, encoderLeft, encoderRight
      reads outerV, outerYaw, lineController, leftWheel, rightWheel
    {
      RobotState(
        motorLeft.DriveState(), motorRight.DriveState(),
        encoderLeft.State(), encoderRight.State(),
        outerV.State(), outerYaw.State(), lineController.State(), leftWheel.State(), rightWheel.State(),
        leftMotorSpeed, rightMotorSpeed,
        callRoundBlock, lastTriggerTime, roundBlock, roundBlockStart,
        crossedLine, finalStep, finish,
        initialHeading, previousFilteredYaw, outerPhase)
    }

    /** The objects are distinct and each keeps its own invariant. */
    ghost predicate Parts()
      reads this, motorLeft, motorRight, encoderLeft, encoderRight
    {
      && Distinct()
      && motorLeft.Valid() && motorRight.Valid() && encoderLeft.Valid() && encoderRight.Valid()
    }

    ghost predicate Valid()
      reads this, motorLeft, motorRight, encoderLeft, encoderRight
      reads outerV, outerYaw, lineController, leftWheel, rightWheel
    {
      Parts() && Inv(State())
    }

    /** Module set-up: the objects and globals of main.py, with the initial heading read once. */
    constructor (counterLeft: int, counterRight: int, nowUs: int, headingBytes: seq<byte>)
      requires IsCounter(counterLeft) && IsCounter(counterRight) && |headingBytes| == 2
      ensures Valid()
      ensures State() == InitialState(motorLeft.dirHigh, motorRight.dirHigh, counterLeft, counterRight, nowUs, headingBytes)
      ensures fresh(motorLeft) && fresh(motorRight) && fresh(encoderLeft) && fresh(encoderRight)
      ensures fresh(outerV) && fresh(outerYaw) && fresh(lineController) && fresh(leftWheel) && fresh(rightWheel)
    {
      outerV := new PidController(KP_OUTER_V, KI_OUTER_V, KD_OUTER_V, 10.0, 10.0);
      outerYaw := new PidController(KP_OUTER_YAW, KI_OUTER_YAW, KD_OUTER_V, 50.0, 50.0);
      encoderLeft := new Encoder(counterLeft, nowUs);
      encoderRight := new Encoder(counterRight, nowUs);
      lineController := new PidController(KP_LINE, KI_LINE, KD_LINE, 10.0, 10.0);
      motorLeft := new Motor();
      motorRight := new Motor();
      leftWheel := new PidController(KP_INNER, KI_INNER, KD_INNER, 100.0, 100.0);
      rightWheel := new PidController(KP_INNER, KI_INNER, KD_INNER, 100.0, 100.0);
      initialHeading := ReadHeading(headingBytes) as real / 16.0;
      leftMotorSpeed := 0.0;
      rightMotorSpeed := 0.0;
      callRoundBlock := false;
      lastTriggerTime := 0;
      roundBlock := Idle;
      roundBlockStart := 0;
      crossedLine := false;
      finalStep := false;
      finish := Start;
      previousFilteredYaw := 0.0;
      outerPhase := Computing;
    }

    /** bumper_isr at time now. */
    method BumperIsr(now: int)
      requires Valid()
      modifies this
      ensures Valid()
      ensures State() == BumperPass(old(State()), now)
    {
      if !callRoundBlock {
        if now - lastTriggerTime > DEBOUNCE_MS {
          lastTriggerTime := now;
          callRoundBlock := true;
        }
      }
    }

    /** Both encoders' get_speed. */
    method ReadWheelSpeeds(rd: Readings) returns (omegaLeft: real, omegaRight: real)
      requires Parts() && Fits(State(), rd)
      modifies encoderLeft, encoderRight
      ensures Parts()
      ensures State() == ReadWheels(old(State()), rd)
      ensures omegaLeft == WheelSpeed(encoderLeft.State()) && omegaRight == WheelSpeed(encoderRight.State())
    {
      omegaLeft := encoderLeft.GetSpeed(rd.counterLeft, rd.nowUs);
      omegaRight := encoderRight.GetSpeed(rd.counterRight, rd.nowUs);
    }

    /** The wheel controllers' update, the clamp to [-100, 100] and set_duty on both motors. */
    method DriveWheels(setLeft: real, setRight: real, measLeft: real, measRight: real)
      requires Parts()
      modifies leftWheel, rightWheel, motorLeft, motorRight
      ensures Parts()
      ensures State() == Commit(WheelPlan(old(State()), setLeft, setRight, measLeft, measRight))
    {
      var leftPwm := leftWheel.Update(setLeft, measLeft, INNER_DT);
      var rightPwm := rightWheel.Update(setRight, measRight, INNER_DT);
      if leftPwm > 100.0 {
        leftPwm := 100.0;
      } else if leftPwm < -100.0 {
        leftPwm := -100.0;
      }
      if rightPwm > 100.0 {
        rightPwm := 100.0;
      } else if rightPwm < -100.0 {
        rightPwm := -100.0;
      }
      motorLeft.SetDuty(leftPwm);
      motorRight.SetDuty(rightPwm);
      CommitOne(WheelPlan(old(State()), setLeft, setRight, measLeft, measRight));
    }

    /** Line tracking: the wheel controllers chase the shares. */
    method TrackPass(rd: Readings)
      requires Parts() && Fits(State(), rd)
      modifies encoderLeft, encoderRight, leftWheel, rightWheel, motorLeft, motorRight
      ensures Parts()
      ensures State() == Commit(TrackPlan(old(State()), rd))
    {
      var omegaLeft, omegaRight := ReadWheelSpeeds(rd);
      var omegaLeftSet := leftMotorSpeed;
      var omegaRightSet := rightMotorSpeed;
      DriveWheels(omegaLeftSet, omegaRightSet, omegaLeft, omegaRight);
    }

    /** The closed-loop arc of the recovery. */
    method ArcControl(rd: Readings)
      requires Parts() && Fits(State(), rd)
      modifies encoderLeft, encoderRight, outerV, outerYaw, leftWheel, rightWheel, motorLeft, motorRight
      ensures Parts()
      ensures State() == Commit(ArcPlan(old(State()), rd))
    {
      ghost var s0 := State();
      var omegaLeft, omegaRight := ReadWheelSpeeds(rd);
      ghost var e := State();
      var linearVelocity := ((omegaLeft * WHEEL_RADIUS) + (omegaRight * WHEEL_RADIUS)) / 2.0;
      var yawRateMeasured := ReadYawRate(rd.yawBytes) * PI / 180.0;
      var vOutput := outerV.Update(ARC_SPEED, linearVelocity, INNER_DT);
      var yawOutput := outerYaw.Update(ARC_YAW_RATE, yawRateMeasured, INNER_DT);
      var w := CalculateMotorSpeeds(vOutput, yawOutput);
      ghost var e2 := e.(outerV := outerV.State(), outerYaw := outerYaw.State());
      assert State() == e2;
      assert linearVelocity == LinearVelocity(omegaLeft, omegaRight);
      assert yawRateMeasured == YawRateRadians(rd.yawBytes);
      assert ArcPlan(s0, rd) == WheelPlan(e2, w.left, w.right, omegaLeft, omegaRight);
      DriveWheels(w.left, w.right, omegaLeft, omegaRight);
    }

    /** One pass of the recovery loop (round_block_state 0 to 4). */
    method RecoveryPass(rd: Readings)
      requires Parts() && Fits(State(), rd) && callRoundBlock
      modifies this, encoderLeft, encoderRight, outerV, outerYaw, leftWheel, rightWheel, motorLeft, motorRight
      ensures Parts()
      ensures State() == Commit(RecoveryPlan(old(State()), rd))
    {
      if roundBlock == Idle {
        ghost var s0 := State();
        roundBlock := Reverse;
        roundBlockStart := rd.nowMs;
        CommitNone(RecoveryPlan(s0, rd));
      } else if roundBlock == Reverse {
        ReversePass(rd);
      } else if roundBlock == Turn1 {
        TurnPass(rd);
      } else if roundBlock == Arc {
        ArcPass(rd);
      } else {
        FindLinePass(rd);
      }
    }

    /** Back away from the obstacle for 750 ms. */
    method ReversePass(rd: Readings)
      requires Parts() && Fits(State(), rd) && callRoundBlock && roundBlock == Reverse
      modifies this, motorLeft, motorRight
      ensures Parts()
      ensures State() == Commit(RecoveryPlan(old(State()), rd))
    {
      ghost var s0 := State();
      motorLeft.SetDuty(-DUTY - LEFT_CORRECTION);
      motorRight.SetDuty(-DUTY);
      if rd.nowMs - roundBlockStart > REVERSE_MS {
        roundBlock := Turn1;
        roundBlockStart := rd.nowMs;
      }
      CommitOne(RecoveryPlan(s0, rd));
    }

    /** Pivot on the spot for int(0.65 * 900) = 585 ms. */
    method TurnPass(rd: Readings)
      requires Parts() && Fits(State(), rd) && callRoundBlock && roundBlock == Turn1
      modifies this, motorLeft, motorRight
      ensures Parts()
      ensures State() == Commit(RecoveryPlan(old(State()), rd))
    {
      ghost var s0 := State();
      motorLeft.SetDuty(DUTY + LEFT_CORRECTION);
      motorRight.SetDuty(-DUTY);
      if rd.nowMs - roundBlockStart > TURN_MS {
        roundBlock := Arc;
        roundBlockStart := rd.nowMs;
      }
      CommitOne(RecoveryPlan(s0, rd));
    }

    /** Drive the closed-loop arc around the obstacle for 3.5 s. */
    method ArcPass(rd: Readings)
      requires Parts() && Fits(State(), rd) && callRoundBlock && roundBlock == Arc
      modifies this, encoderLeft, encoderRight, outerV, outerYaw, leftWheel, rightWheel, motorLeft, motorRight
      ensures Parts()
      ensures State() == Commit(RecoveryPlan(old(State()), rd))
    {
      ghost var s0 := State();
      ArcControl(rd);
      if rd.nowMs - roundBlockStart > ARC_MS {
        roundBlock := FindLine;
        roundBlockStart := rd.nowMs;
      }
    }

    /**
     * Turn towards the line while it is in sight; more than 400 ms into this state with the
     * line in sight, the recovery ends and the finish becomes possible.
     */
    method FindLinePass(rd: Readings)
      requires Parts() && Fits(State(), rd) && callRoundBlock && roundBlock == FindLine
      modifies this, motorLeft, motorRight
      ensures Parts()
      ensures State() == Commit(RecoveryPlan(old(State()), rd))
    {
      ghost var s0 := State();
      if IsLine(rd.lineRaw) {
        LineInSight(rd);
      } else {
        CommitNone(RecoveryPlan(s0, rd));
      }
    }

    /** The FindLine pass with the line in sight: keep turning, and end the recovery after 400 ms. */
    method LineInSight(rd: Readings)
      requires Parts() && Fits(State(), rd) && callRoundBlock && roundBlock == FindLine && IsLine(rd.lineRaw)
      modifies this, motorLeft, motorRight
      ensures Parts()
      ensures State() == Commit(RecoveryPlan(old(State()), rd))
    {
      ghost var s0 := State();
      ghost var done := rd.nowMs - roundBlockStart > FIND_LINE_MS;
      ghost var p := RecoveryPlan(s0, rd);
      assert p.commands == [Command(DUTY + LEFT_CORRECTION, -DUTY)];
      assert p.state == s0.(callRoundBlock := !done, roundBlock := if done then Idle else FindLine,
                            finalStep := s0.finalStep || done);
      motorLeft.SetDuty(DUTY + LEFT_CORRECTION);
      motorRight.SetDuty(-DUTY);
      if rd.nowMs - roundBlockStart > FIND_LINE_MS {
        roundBlock := Idle;
        callRoundBlock := false;
        finalStep := true;
      }
      CommitOne(p);
    }

    /** One pass of the finish sequence (final_step_state 0 to 4). */
    method FinishPass(rd: Readings)
      requires Parts() && Fits(State(), rd)
      modifies this, motorLeft, motorRight
      ensures Parts()
      ensures State() == Commit(FinishPlan(old(State()), rd))
    {
      if finish == Start {
        ghost var s0 := State();
        finish := Forward;
        roundBlockStart := rd.nowMs;
        CommitNone(FinishPlan(s0, rd));
      } else if finish == Forward {
        ForwardPass(rd);
      } else if finish == Stop {
        StopPass(rd);
      } else if finish == Turnaround {
        TurnaroundPass(rd);
      } else {
        StraightPass(rd);
      }
    }

    /** Forward into the finish box for 1.2 s. */
    method ForwardPass(rd: Readings)
      requires Parts() && Fits(State(), rd) && finish == Forward
      modifies this, motorLeft, motorRight
      ensures Parts()
      ensures State() == Commit(FinishPlan(old(State()), rd))
    {
      ghost var s0 := State();
      ghost var p := FinishPlan(s0, rd);
      ghost var next := rd.nowMs - roundBlockStart > FORWARD_MS;
      assert p.commands == [Command(DUTY, DUTY)];
      assert p.state == if next then s0.(finish := Stop, roundBlockStart := rd.nowMs) else s0;
      motorLeft.SetDuty(DUTY);
      motorRight.SetDuty(DUTY);
      if rd.nowMs - roundBlockStart > FORWARD_MS {
        finish := Stop;
        roundBlockStart := rd.nowMs;
      }
      CommitOne(p);
    }

    /** Stand still for 1 s. */
    method StopPass(rd: Readings)
      requires Parts() && Fits(State(), rd) && finish == Stop
      modifies this, motorLeft, motorRight
      ensures Parts()
      ensures State() == Commit(FinishPlan(old(State()), rd))
    {
      ghost var s0 := State();
      ghost var p := FinishPlan(s0, rd);
      ghost var next := rd.nowMs - roundBlockStart > STOP_MS;
      assert p.commands == [Command(0.0, 0.0)];
      assert p.state == if next then s0.(finish := Turnaround, roundBlockStart := rd.nowMs) else s0;
      motorLeft.SetDuty(0.0);
      motorRight.SetDuty(0.0);
      if rd.nowMs - roundBlockStart > STOP_MS {
        finish := Turnaround;
        roundBlockStart := rd.nowMs;
      }
      CommitOne(p);
    }

    /** The turnaround: spin until the heading is back within 0.5 degree of the initial one, then stop. */
    method TurnaroundPass(rd: Readings)
      requires Parts() && Fits(State(), rd) && finish == Turnaround
      modifies this, motorLeft, motorRight
      ensures Parts()
      ensures State() == Commit(FinishPlan(old(State()), rd))
    {
      var heading := ReadHeading(rd.headingBytes) as real / 16.0;
      if AbsReal(initialHeading - heading) <= HEADING_TOLERANCE {
        StopTurnaround(rd);
      } else {
        ghost var s0 := State();
        ghost var p := FinishPlan(s0, rd);
        assert p.commands == [Command(10.0 + LEFT_CORRECTION, -10.0)];
        assert p.state == s0;
        motorLeft.SetDuty(10.0 + LEFT_CORRECTION);
        motorRight.SetDuty(-10.0);
        CommitOne(p);
      }
    }

    /** The turnaround pass that finds the heading matched: one spin command, then stop and start the last straight. */
    method StopTurnaround(rd: Readings)
      requires Parts() && Fits(State(), rd) && finish == Turnaround
      requires AbsReal(initialHeading - ReadHeading(rd.headingBytes) as real / 16.0) <= HEADING_TOLERANCE
      modifies this, motorLeft, motorRight
      ensures Parts()
      ensures State() == Commit(FinishPlan(old(State()), rd))
    {
      ghost var s0 := State();
      ghost var p := FinishPlan(s0, rd);
      assert p.commands == [Command(10.0 + LEFT_CORRECTION, -10.0), Command(0.0, 0.0)];
      assert p.state == s0.(finish := Straight, roundBlockStart := rd.nowMs);
      motorLeft.SetDuty(10.0 + LEFT_CORRECTION);
      motorRight.SetDuty(-10.0);
      finish := Straight;
      motorLeft.SetDuty(0.0);
      motorRight.SetDuty(0.0);
      roundBlockStart := rd.nowMs;
      CommitTwo(p);
    }

    /** The last straight: drive for 6.6 s, then stop both motors and end the run. */
    method StraightPass(rd: Readings)
      requires Parts() && Fits(State(), rd) && finish == Straight
      modifies this, motorLeft, motorRight
      ensures Parts()
      ensures State() == Commit(FinishPlan(old(State()), rd))
    {
      ghost var s0 := State();
      ghost var p := FinishPlan(s0, rd);
      motorLeft.SetDuty(DUTY - 0.5);
      motorRight.SetDuty(DUTY);
      if rd.nowMs - roundBlockStart > STRAIGHT_MS {
        assert p.commands == [Command(DUTY - 0.5, DUTY), Command(0.0, 0.0)];
        assert p.state == s0.(finish := Done);
        motorLeft.SetDuty(0.0);
        motorRight.SetDuty(0.0);
        finish := Done;
        CommitTwo(p);
      } else {
        assert p.commands == [Command(DUTY - 0.5, DUTY)];
        assert p.state == s0;
        CommitOne(p);
      }
    }

    /** One invocation of inner_loop_task: recovery first, then the finish, else line tracking. */
    method InnerStep(rd: Readings)
      requires Valid() && Fits(State(), rd)
      modifies this, encoderLeft, encoderRight, outerV, outerYaw, leftWheel, rightWheel, motorLeft, motorRight
      ensures Valid()
      ensures State() == InnerPass(old(State()), rd)
    {
      ghost var s0 := State();
      if finish != Start {
        FinishPass(rd);
      } else if callRoundBlock {
        RecoveryPass(rd);
      } else if finalStep && crossedLine {
        FinishPass(rd);
      } else {
        TrackPass(rd);
      }
      InnerKeepsInv(s0, rd);
    }

    /** The computing half of outer_loop_task: sensing, then the controllers. */
    method ComputeTargets(rd: Readings) returns (w: WheelSpeeds)
      requires Parts() && Fits(State(), rd)
      modifies this, encoderLeft, encoderRight, lineController, outerV, outerYaw
      ensures Parts()
      ensures State() == OuterCompute(old(State()), rd).state
      ensures w == OuterCompute(old(State()), rd).wheels
    {
      ghost var s0 := State();
      var omegaLeft, omegaRight := ReadWheelSpeeds(rd);
      var linearVelocity := ((omegaLeft * WHEEL_RADIUS) + (omegaRight * WHEEL_RADIUS)) / 2.0;
      var vMeasured := linearVelocity;
      var yawRateMeasured := ReadYawRate(rd.yawBytes) * PI / 180.0;
      var filteredYaw := YAW_FILTER_ALPHA * previousFilteredYaw + (1.0 - YAW_FILTER_ALPHA) * yawRateMeasured;
      previousFilteredYaw := filteredYaw;
      var thresholded := Thresholded(rd.lineRaw);
      var centroid := CalculateCentroid(thresholded);
      if finalStep && Sum(thresholded) >= CROSSING_COUNT {
        crossedLine := true;
      }
      assert linearVelocity == LinearVelocity(omegaLeft, omegaRight);
      assert yawRateMeasured == YawRateRadians(rd.yawBytes);
      w := RunControllers(centroid, vMeasured, filteredYaw);
    }

    /** The line, speed and yaw controllers of the outer loop and the decoupling. */
    method RunControllers(centroid: real, vMeasured: real, filteredYaw: real) returns (w: WheelSpeeds)
      requires Parts()
      modifies lineController, outerV, outerYaw
      ensures Parts()
      ensures State() == OuterControl(old(State()), centroid, vMeasured, filteredYaw).state
      ensures w == OuterControl(old(State()), centroid, vMeasured, filteredYaw).wheels
    {
      var lineFollowingOutput := 0.0;
      if centroid > 0.0 {
        lineFollowingOutput := lineController.Update(LINE_SETPOINT, centroid, OUTER_DT);
      }
      var vOutput := outerV.Update(CRUISE_SPEED, vMeasured, OUTER_DT);
      var yawOutput := outerYaw.Update(lineFollowingOutput, filteredYaw, OUTER_DT);
      w := CalculateMotorSpeeds(vOutput, yawOutput);
    }

    /**
     * One invocation of outer_loop_task: compute new wheel targets and publish them, or
     * hold them while a recovery runs and publish them in the first invocation after it.
     */
    method OuterStep(rd: Readings)
      requires Valid() && Fits(State(), rd)
      modifies this, encoderLeft, encoderRight, lineController, outerV, outerYaw
      ensures Valid()
      ensures State() == OuterPass(old(State()), rd)
    {
      ghost var s0 := State();
      match outerPhase
      case Computing =>
        var w := ComputeTargets(rd);
        if callRoundBlock {
          outerPhase := Waiting(w.left, w.right);
        } else {
          leftMotorSpeed := w.left;
          rightMotorSpeed := w.right;
        }
      case Waiting(l, r) =>
        if !callRoundBlock {
          leftMotorSpeed := l;
          rightMotorSpeed := r;
          outerPhase := Computing;
        }
      OuterKeepsInv(s0, rd);
    }
  }
}
