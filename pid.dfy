/**
 * The PID primitive of the cascade controller (class PIDController in main.py).
 *
 * The object's abstract value is a PidState; one call of update is the pure
 * function PidStep, whose contract carries the clamping guarantees, and the
 * class method Update is proved to perform exactly that step in place.
 */
module Pid {

  /** Everything a PIDController object stores (prev_time is never read and is left out). */
  datatype PidState = PidState(
    kp: real, ki: real, kd: real,
    integral: real,
    prevError: real,
    outMax: real,
    integralLimit: real)

  /** What one call of update leaves behind and returns. */
  datatype PidResult = PidResult(next: PidState, output: real)

  /**
   * max(min(x, limit), -limit): the integral clamp. For a non-negative limit the
   * result is x clamped into [-limit, limit]; for a negative limit the expression
   * always yields -limit, and the model keeps that.
   */
  function ClampSymmetric(x: real, limit: real): (r: real)
    ensures limit >= 0.0 ==> -limit <= r <= limit
    ensures limit >= 0.0 && -limit <= x <= limit ==> r == x
    ensures limit >= 0.0 && x > limit ==> r == limit
    ensures limit >= 0.0 && x < -limit ==> r == -limit
    ensures limit < 0.0 ==> r == -limit
  {
    var upper := if x < limit then x else limit;
    if upper > -limit then upper else -limit
  }

  /** The derivative term: the error slope over dt, or 0 when dt is not positive. */
  function Derivative(error: real, prevError: real, dt: real): (r: real)
    ensures dt <= 0.0 ==> r == 0.0
    ensures dt > 0.0 ==> r * dt == error - prevError
  {
    if dt > 0.0 then (error - prevError) / dt else 0.0
  }

  /**
   * The two output guards of update, applied in the source's order:
   * first "> out_max", then "<= -out_max".
   */
  function Saturate(u: real, outMax: real): (r: real)
    ensures outMax >= 0.0 ==> -outMax <= r <= outMax
    ensures -outMax < u <= outMax ==> r == u
    ensures outMax >= 0.0 && u > outMax ==> r == outMax
    ensures u <= -outMax && u <= outMax ==> r == -outMax
  {
    var v := if u > outMax then outMax else u;
    if v <= -outMax then -outMax else v
  }

  /** One call of update(setpoint, measurement, dt) on a controller in state p. */
  function PidStep(p: PidState, setpoint: real, measurement: real, dt: real): (r: PidResult)
    ensures p.integralLimit >= 0.0 ==> -p.integralLimit <= r.next.integral <= p.integralLimit
    ensures p.outMax >= 0.0 ==> -p.outMax <= r.output <= p.outMax
    ensures r.next.prevError == setpoint - measurement
    ensures r.next == p.(integral := r.next.integral, prevError := r.next.prevError)
  {
    var error := setpoint - measurement;
    var integral := ClampSymmetric(p.integral + error * dt, p.integralLimit);
    var derivative := Derivative(error, p.prevError, dt);
    PidResult(p.(integral := integral, prevError := error),
              Saturate(Combine(p, error, integral, derivative), p.outMax))
  }

  /** The unsaturated sum kp * error + ki * integral + kd * derivative. */
  function Combine(p: PidState, error: real, integral: real, derivative: real): real {
    p.kp * error + p.ki * integral + p.kd * derivative
  }

  /**
   * Away from both clamps the step is the textbook one: the integral accumulates
   * error * dt, and the output is kp * e + ki * I + kd * (e - e_prev) / dt, without the
   * derivative term when dt <= 0.
   */
  lemma PidStepUnclamped(p: PidState, setpoint: real, measurement: real, dt: real)
    ensures var r := PidStep(p, setpoint, measurement, dt);
            p.integralLimit >= 0.0 && -p.integralLimit <= p.integral + (setpoint - measurement) * dt <= p.integralLimit
            ==> r.next.integral == p.integral + (setpoint - measurement) * dt
    ensures var r := PidStep(p, setpoint, measurement, dt);
            dt <= 0.0 && -p.outMax < p.kp * (setpoint - measurement) + p.ki * r.next.integral <= p.outMax
            ==> r.output == p.kp * (setpoint - measurement) + p.ki * r.next.integral
    ensures dt > 0.0 ==>
              var r := PidStep(p, setpoint, measurement, dt);
              var u := p.kp * (setpoint - measurement) + p.ki * r.next.integral
                       + p.kd * ((setpoint - measurement - p.prevError) / dt);
              -p.outMax < u <= p.outMax ==> r.output == u
  {
    var error := setpoint - measurement;
    var integral := ClampSymmetric(p.integral + error * dt, p.integralLimit);
    var derivative := Derivative(error, p.prevError, dt);
    var u := Combine(p, error, integral, derivative);
    PidStepParts(p, setpoint, measurement, dt, error, integral, derivative, u, Saturate(u, p.outMax));
  }

  /** The pieces of one update, computed separately, assemble into PidStep. */
  lemma PidStepParts(p: PidState, setpoint: real, measurement: real, dt: real,
                     error: real, integral: real, derivative: real, u: real, output: real)
    requires error == setpoint - measurement
    requires integral == ClampSymmetric(p.integral + error * dt, p.integralLimit)
    requires derivative == Derivative(error, p.prevError, dt)
    requires u == Combine(p, error, integral, derivative)
    requires output == Saturate(u, p.outMax)
    ensures PidStep(p, setpoint, measurement, dt) == PidResult(p.(integral := integral, prevError := error), output)
  {
  }

  /** The integral lies within its clamp (the class invariant for a non-negative limit). */
  ghost predicate IntegralBounded(p: PidState) {
    p.integralLimit >= 0.0 ==> -p.integralLimit <= p.integral <= p.integralLimit
  }

  /**
   * Over any sequence of calls the integral stays clamped and every output is
   * within [-out_max, out_max]; Outputs lists the returned values in order.
   */
  function Run(p: PidState, calls: seq<(real, real, real)>): (r: PidState)
    decreases |calls|
  {
    if calls == [] then p
    else Run(PidStep(p, calls[0].0, calls[0].1, calls[0].2).next, calls[1..])
  }

  function Outputs(p: PidState, calls: seq<(real, real, real)>): (outs: seq<real>)
    ensures |outs| == |calls|
    decreases |calls|
  {
    if calls == [] then []
    else
      var step := PidStep(p, calls[0].0, calls[0].1, calls[0].2);
      [step.output] + Outputs(step.next, calls[1..])
  }

  lemma {:induction false} RunKeepsBounds(p: PidState, calls: seq<(real, real, real)>)
    requires IntegralBounded(p)
    ensures IntegralBounded(Run(p, calls))
    ensures Run(p, calls).outMax == p.outMax && Run(p, calls).integralLimit == p.integralLimit
    ensures p.outMax >= 0.0 ==> forall i :: 0 <= i < |calls| ==> -p.outMax <= Outputs(p, calls)[i] <= p.outMax
    decreases |calls|
  {
    if calls != [] {
      var step := PidStep(p, calls[0].0, calls[0].1, calls[0].2);
      RunKeepsBounds(step.next, calls[1..]);
      assert Outputs(p, calls) == [step.output] + Outputs(step.next, calls[1..]);
    }
  }

  class PidController {
    var kp: real
    var ki: real
    var kd: real
    var integral: real
    var outMax: real
    var integralLimit: real
    var prevError: real

    /** The abstract value of the controller. */
    function State(): PidState
      reads this
    {
      PidState(kp, ki, kd, integral, prevError, outMax, integralLimit)
    }

    /** __init__: gains and limits as given, integral and previous error zero. */
    constructor (kp: real, ki: real, kd: real, outMax: real, integralLimit: real)
      ensures State() == PidState(kp, ki, kd, 0.0, 0.0, outMax, integralLimit)
    {
      this.kp, this.ki, this.kd := kp, ki, kd;
      integral := 0.0;
      this.outMax := outMax;
      this.integralLimit := integralLimit;
      prevError := 0.0;
    }

    /** set_gains: only the three gains change; the integral and derivative history survive. */
    method SetGains(kp: real, ki: real, kd: real)
      modifies this
      ensures State() == old(State()).(kp := kp, ki := ki, kd := kd)
    {
      this.kp, this.ki, this.kd := kp, ki, kd;
    }

    /** update: one PID step, clamping the integral and the output. */
    method Update(setpoint: real, measurement: real, dt: real) returns (output: real)
      modifies this
      ensures PidResult(State(), output) == PidStep(old(State()), setpoint, measurement, dt)
      ensures integralLimit >= 0.0 ==> -integralLimit <= integral <= integralLimit
      ensures outMax >= 0.0 ==> -outMax <= output <= outMax
      ensures prevError == setpoint - measurement
    {
      ghost var s0 := State();
      var error := setpoint - measurement;
      var clamped := ClampSymmetric(integral + error * dt, integralLimit);
      var derivative := Derivative(error, prevError, dt);
      output := kp * error + ki * clamped + kd * derivative;
      ghost var u := output;
      assert u == Combine(s0, error, clamped, derivative);
      if output > outMax {
        output := outMax;
      }
      if output <= -outMax {
        output := -outMax;
      }
      assert output == Saturate(u, outMax);
      PidStepParts(s0, setpoint, measurement, dt, error, clamped, derivative, u, output);
      integral, prevError := clamped, error;
    }
  }
}
