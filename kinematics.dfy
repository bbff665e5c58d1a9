/**
 * Differential-drive kinematics of main.py: the decoupling transform that turns a
 * chassis command (linear velocity, yaw rate) into wheel angular speeds, and the
 * velocity estimate the tasks compute from the two wheel speeds.
 */
module Kinematics {

  /** Wheel radius and track width, in feet. */
  const WHEEL_RADIUS: real := 1.375 / 12.0
  const TRACK_WIDTH: real := 5.5 / 12.0

  datatype WheelSpeeds = WheelSpeeds(left: real, right: real)
  datatype Chassis = Chassis(v: real, yawRate: real)

  /**
   * calculate_motor_speeds: the two wheels share v / r and split the yaw rate
   * symmetrically, (w / 2r) each way.
   */
  function CalculateMotorSpeeds(v: real, yawRate: real): (w: WheelSpeeds)
    ensures (w.left + w.right) / 2.0 == v / WHEEL_RADIUS
    ensures w.right - w.left == (TRACK_WIDTH / WHEEL_RADIUS) * yawRate
  {
    var forward := (1.0 / WHEEL_RADIUS) * v;
    var turn := (TRACK_WIDTH / (2.0 * WHEEL_RADIUS)) * yawRate;
    WheelSpeeds(forward - turn, forward + turn)
  }

  /**
   * The linear velocity estimate of the tasks: the mean of the two wheels'
   * rim speeds, ((omega_left * r) + (omega_right * r)) / 2.
   */
  function LinearVelocity(omegaLeft: real, omegaRight: real): (v: real)
    ensures v / WHEEL_RADIUS == (omegaLeft + omegaRight) / 2.0
  {
    ((omegaLeft * WHEEL_RADIUS) + (omegaRight * WHEEL_RADIUS)) / 2.0
  }

  /** The inverse of the decoupling transform: the chassis motion two wheel speeds produce. */
  function ChassisOf(w: WheelSpeeds): (c: Chassis)
    ensures c.v == LinearVelocity(w.left, w.right)
    ensures c.yawRate * TRACK_WIDTH == (w.right - w.left) * WHEEL_RADIUS
  {
    Chassis(LinearVelocity(w.left, w.right), (w.right - w.left) * WHEEL_RADIUS / TRACK_WIDTH)
  }

  /** Decoupling then recovering the chassis motion gives back the command. */
  lemma DecouplingInvertible(v: real, yawRate: real)
    ensures ChassisOf(CalculateMotorSpeeds(v, yawRate)) == Chassis(v, yawRate)
  {
    var w := CalculateMotorSpeeds(v, yawRate);
    assert w.left + w.right == 2.0 * v / WHEEL_RADIUS;
    assert (w.right - w.left) * WHEEL_RADIUS == TRACK_WIDTH * yawRate;
  }

  /** Every pair of wheel speeds is reached by decoupling exactly one chassis command. */
  lemma DecouplingSurjective(w: WheelSpeeds)
    ensures CalculateMotorSpeeds(ChassisOf(w).v, ChassisOf(w).yawRate) == w
  {
    var c := ChassisOf(w);
    var r := CalculateMotorSpeeds(c.v, c.yawRate);
    assert r.left + r.right == w.left + w.right;
    assert r.right - r.left == w.right - w.left;
  }
}
