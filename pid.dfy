// The approach controller's constants and its PID control law.
module Pid {

  const K_P: real := 4.7
  const K_I: real := 0.01
  const K_D: real := 2.3

  /** Reference standoff distance in inches (`ref`). */
  const REF: real := 6.0

  /** Below this error magnitude the approach controller does nothing. */
  const DEADBAND: real := 0.5
  /** Above this previous actuation magnitude the integral is reset (anti-windup). */
  const WINDUP_LIMIT: real := 10.0
  /** Below this actuation magnitude, or this error magnitude, the controller calls it converged. */
  const MIN_ACTUATION: real := 0.2
  const MIN_ERROR: real := 0.1

  /** fabs */
  function Abs(x: real): (r: real)
    ensures 0.0 <= r && (r == x || r == -x)
  {
    if x < 0.0 then -x else x
  }

  /**
   * controlLaw: the discrete PID law over the current error, the integral
   * accumulator and the derivative. With non-negative gains the actuation
   * has the sign the three terms agree on, and zero error state gives zero
   * actuation.
   */
  function ControlLaw(kp: real, ki: real, kd: real, error: real, integral: real, derivative: real): (r: real)
    ensures error == 0.0 && integral == 0.0 && derivative == 0.0 ==> r == 0.0
    ensures 0.0 <= kp && 0.0 <= ki && 0.0 <= kd && 0.0 <= error && 0.0 <= integral && 0.0 <= derivative ==> 0.0 <= r
    ensures 0.0 <= kp && 0.0 <= ki && 0.0 <= kd && error <= 0.0 && integral <= 0.0 && derivative <= 0.0 ==> r <= 0.0
  {
    kp * error + ki * integral + kd * derivative
  }
}
