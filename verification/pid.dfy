/** The PID controller of src/PID.py: one update step computes the error,
    accumulates the integral, takes a derivative guarded against a
    non-positive time step, and clamps the output symmetrically. */
module PidControl {

  /** max_output: float('inf') by default, otherwise a finite bound. */
  datatype MaxOutput = Unbounded | Bounded(bound: real)

  /** The value the two clamping tests of update leave: inside [-m, m] for a
      non-negative bound, and -m for a negative one, where the second test
      always undoes the first. */
  function Clamp(x: real, m: MaxOutput): (r: real)
    ensures m.Unbounded? ==> r == x
    ensures m.Bounded? && m.bound >= 0.0 ==> -m.bound <= r <= m.bound
    ensures m.Bounded? && -m.bound <= x <= m.bound ==> r == x
    ensures m.Bounded? && m.bound >= 0.0 && x > m.bound ==> r == m.bound
    ensures m.Bounded? && m.bound >= 0.0 && x < -m.bound ==> r == -m.bound
    ensures m.Bounded? && m.bound < 0.0 ==> r == -m.bound
  {
    match m
    case Unbounded => x
    case Bounded(b) =>
      if b < 0.0 then -b
      else if x > b then b
      else if x < -b then -b
      else x
  }

  /** Clamping an already clamped value changes nothing. */
  lemma ClampIdempotent(x: real, m: MaxOutput)
    ensures Clamp(Clamp(x, m), m) == Clamp(x, m)
  {
  }

  /** Clamping keeps the order of its inputs. */
  lemma ClampMonotone(x: real, y: real, m: MaxOutput)
    requires x <= y
    ensures Clamp(x, m) <= Clamp(y, m)
  {
  }

  /** The derivative term: the change of the error over dt when dt > 0, and
      exactly 0 otherwise. */
  function Derivative(error: real, previousError: real, dt: real): (d: real)
    ensures dt <= 0.0 ==> d == 0.0
    ensures dt > 0.0 ==> d * dt == error - previousError
  {
    if dt > 0.0 then (error - previousError) / dt else 0.0
  }

  class Pid {
    var kp: real
    var ki: real
    var kd: real
    var setpoint: real
    var maxOutput: MaxOutput
    var previousError: real
    var integral: real

    /** __init__: the given gains, setpoint and bound, with no history. */
    constructor (kp: real, ki: real, kd: real, setpoint: real, maxOutput: MaxOutput)
      ensures this.kp == kp && this.ki == ki && this.kd == kd
      ensures this.setpoint == setpoint && this.maxOutput == maxOutput
      ensures previousError == 0.0 && integral == 0.0
    {
      this.kp, this.ki, this.kd := kp, ki, kd;
      this.setpoint, this.maxOutput := setpoint, maxOutput;
      previousError, integral := 0.0, 0.0;
    }

    /** update: the integral grows by error*dt with no clamp or decay, the
        raw output uses the updated integral, the output is clamped, and the
        error is remembered. Gains, setpoint and bound are untouched. */
    method Update(measured: real, dt: real) returns (output: real)
      modifies this`integral, this`previousError
      ensures integral == old(integral) + (setpoint - measured) * dt
      ensures previousError == setpoint - measured
      ensures output == Clamp(kp * (setpoint - measured) + ki * integral
                              + kd * Derivative(setpoint - measured, old(previousError), dt), maxOutput)
      ensures maxOutput.Bounded? && maxOutput.bound >= 0.0 ==> -maxOutput.bound <= output <= maxOutput.bound
      ensures (old(integral) == 0.0 && old(previousError) == 0.0 && measured == setpoint
               && !(maxOutput.Bounded? && maxOutput.bound < 0.0)) ==> output == 0.0 && integral == 0.0
    {
      var error := setpoint - measured;
      integral := integral + error * dt;
      var derivative := Derivative(error, previousError, dt);
      output := kp * error + ki * integral + kd * derivative;
      ghost var raw := output;
      assert raw == kp * (setpoint - measured) + ki * integral
                    + kd * Derivative(setpoint - measured, old(previousError), dt);
      if maxOutput.Bounded? {
        if output > maxOutput.bound {
          output := maxOutput.bound;
        }
        if output < -maxOutput.bound {
          output := -maxOutput.bound;
        }
      }
      assert output == Clamp(raw, maxOutput);
      previousError := error;
    }

    /** set_setpoint. */
    method SetSetpoint(setpoint: real)
      modifies this`setpoint
      ensures this.setpoint == setpoint
    {
      this.setpoint := setpoint;
    }

    /** set_gains. */
    method SetGains(kp: real, ki: real, kd: real)
      modifies this`kp, this`ki, this`kd
      ensures this.kp == kp && this.ki == ki && this.kd == kd
    {
      this.kp, this.ki, this.kd := kp, ki, kd;
    }

    /** set_max_output. */
    method SetMaxOutput(maxOutput: MaxOutput)
      modifies this`maxOutput
      ensures this.maxOutput == maxOutput
    {
      this.maxOutput := maxOutput;
    }

    /** get_gains. */
    method GetGains() returns (g: (real, real, real))
      ensures g == (kp, ki, kd)
    {
      g := (kp, ki, kd);
    }

    /** get_setpoint. */
    method GetSetpoint() returns (s: real)
      ensures s == setpoint
    {
      s := setpoint;
    }

    /** get_max_output. */
    method GetMaxOutput() returns (m: MaxOutput)
      ensures m == maxOutput
    {
      m := maxOutput;
    }

    /** get_previous_error. */
    method GetPreviousError() returns (e: real)
      ensures e == previousError
    {
      e := previousError;
    }

    /** get_integral. */
    method GetIntegral() returns (i: real)
      ensures i == integral
    {
      i := integral;
    }

    /** reset: forgets the history and keeps the configuration. */
    method Reset()
      modifies this`previousError, this`integral
      ensures previousError == 0.0 && integral == 0.0
    {
      previousError, integral := 0.0, 0.0;
    }
  }

  /** A proportional controller with setpoint 2: measuring 1 pushes up by 1,
      then measuring 3 pushes down by 1; a reset then a measurement at the
      setpoint gives 0. */
  method ProportionalExample() returns (first: real, second: real, atRest: real)
    ensures first == 1.0 && second == -1.0 && atRest == 0.0
  {
    var pid := new Pid(1.0, 0.0, 0.0, 2.0, Unbounded);
    first := pid.Update(1.0, 1.0);
    second := pid.Update(3.0, 1.0);
    pid.Reset();
    atRest := pid.Update(2.0, 1.0);
  }
}
