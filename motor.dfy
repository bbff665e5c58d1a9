/**
 * The Romi motor driver (class Motor in Romi-Files/motor.py). The direction pin,
 * the PWM channel and the sleep pin are abstract state: a pin is high or low, the
 * PWM channel holds its pulse-width percent.
 */
module MotorDriver {

  /** The drive state set_duty controls: direction pin level and PWM percent. */
  datatype Drive = Drive(dirHigh: bool, pwm: real)

  /** The duties set_duty accepts. */
  predicate DutyInRange(duty: real) {
    -100.0 <= duty <= 100.0
  }

  /** The signed duty a drive state stands for: a high direction pin means reverse. */
  function SignedDuty(d: Drive): real {
    if d.dirHigh then -d.pwm else d.pwm
  }

  /**
   * set_duty on a drive state: forward duties pull the direction pin low, reverse
   * duties pull it high, zero only zeroes the PWM, and anything outside
   * [-100, 100] is refused and changes nothing (the firmware prints an error).
   */
  function NextDrive(d: Drive, duty: real): (r: Drive)
    ensures DutyInRange(duty) ==> SignedDuty(r) == duty
    ensures DutyInRange(duty) ==> r.pwm == (if duty < 0.0 then -duty else duty)
    ensures 0.0 < duty <= 100.0 ==> !r.dirHigh
    ensures -100.0 <= duty < 0.0 ==> r.dirHigh
    ensures duty == 0.0 ==> r.dirHigh == d.dirHigh
    ensures !DutyInRange(duty) ==> r == d
    ensures 0.0 <= d.pwm <= 100.0 ==> 0.0 <= r.pwm <= 100.0
  {
    if 0.0 < duty <= 100.0 then Drive(false, duty)
    else if duty == 0.0 then d.(pwm := 0.0)
    else if -100.0 <= duty < 0.0 then Drive(true, -duty)
    else d
  }

  /** Applying a sequence of set_duty calls in order. */
  function NextDriveAll(d: Drive, duties: seq<real>): Drive
    decreases |duties|
  {
    if duties == [] then d else NextDriveAll(NextDrive(d, duties[0]), duties[1..])
  }

  /** Whatever sequence of duties is sent, the PWM percent stays within [0, 100]. */
  lemma {:induction false} PwmStaysInRange(d: Drive, duties: seq<real>)
    requires 0.0 <= d.pwm <= 100.0
    ensures 0.0 <= NextDriveAll(d, duties).pwm <= 100.0
    decreases |duties|
  {
    if duties != [] {
      PwmStaysInRange(NextDrive(d, duties[0]), duties[1..]);
    }
  }

  /** After a sequence ending with an accepted duty, the motor drives at exactly that duty. */
  lemma {:induction false} LastAcceptedDutyWins(d: Drive, duties: seq<real>)
    requires |duties| > 0 && DutyInRange(duties[|duties| - 1])
    ensures SignedDuty(NextDriveAll(d, duties)) == duties[|duties| - 1]
    decreases |duties|
  {
    if |duties| > 1 {
      LastAcceptedDutyWins(NextDrive(d, duties[0]), duties[1..]);
    }
  }

  class Motor {
    var dirHigh: bool
    var pwm: real
    var sleepHigh: bool

    ghost predicate Valid()
      reads this
    {
      0.0 <= pwm <= 100.0
    }

    function DriveState(): Drive
      reads this
    {
      Drive(dirHigh, pwm)
    }

    /** __init__: the sleep pin is driven high (enabled) and the PWM starts at 0 percent. */
    constructor ()
      ensures Valid()
      ensures pwm == 0.0 && sleepHigh
    {
      sleepHigh := true;
      pwm := 0.0;
    }

    /** set_duty: the signed duty becomes a direction and a PWM percent; out-of-range duties are refused. */
    method SetDuty(duty: real)
      requires Valid()
      modifies this
      ensures Valid()
      ensures DriveState() == NextDrive(old(DriveState()), duty)
      ensures sleepHigh == old(sleepHigh)
    {
      if duty > 0.0 && duty <= 100.0 {
        dirHigh := false;
        pwm := duty;
      } else if duty == 0.0 {
        pwm := 0.0;
      } else if duty >= -100.0 && duty < 0.0 {
        dirHigh := true;
        pwm := -duty;
      }
    }

    /** enable: sleep pin high; the drive state is untouched. */
    method Enable()
      modifies this
      ensures sleepHigh
      ensures DriveState() == old(DriveState())
    {
      sleepHigh := true;
    }

    /** disable: sleep pin low; the drive state is untouched. */
    method Disable()
      modifies this
      ensures !sleepHigh
      ensures DriveState() == old(DriveState())
    {
      sleepHigh := false;
    }
  }
}
