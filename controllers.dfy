// The three behaviour controllers, each as a step over the globals.
module Controllers {
  import opened Motion
  import opened Behavior
  import opened Pid
  import opened RobotState

  const WANDER_ANGLE: nat := 360
  const WANDER_TURN_RATE: real := 15.0
  const WANDER_SPEED: real := 7.0
  const WANDER_DIST: real := 10.0
  /** Closer than this after the wander turn, the robot does not drive on. */
  const WANDER_NEAR: real := 20.0

  const WALL_FOLLOW_TURNANGLE: real := 180.0
  const WALL_FOLLOW_TURNRATE: real := 15.0
  const WALL_FOLLOW_ARCH_RADIUS: real := 10.0
  const WALL_FOLLOW_ARCH_SPEED: real := 25.0

  /** The approach controller acts: its flag is up and the new error is outside the deadband. */
  predicate Engaged(g: Globals) {
    IsUp(g.behaviorState, APPROACH_MASK) && Abs(REF - g.meas) > DEADBAND
  }

  /** The integral after anti-windup: reset when the previous actuation was large, else accumulated. */
  function WoundIntegral(g: Globals): real {
    if Abs(g.actuation) > WINDUP_LIMIT then 0.0 else g.integral + (REF - g.meas)
  }

  /** The actuation the control law gives for the new error state of an engaged step. */
  function RawActuation(g: Globals): real {
    ControlLaw(K_P, K_I, K_D, REF - g.meas, WoundIntegral(g), (REF - g.meas) - g.error)
  }

  /**
   * approachController. The error history always shifts; only an engaged
   * step touches the integral and the actuation and sends exactly one
   * command: Idle when converged (which also zeroes the actuation and both
   * errors), otherwise a one-unit non-blocking drive whose direction is
   * opposite to the sign of the actuation and whose speed is the actuation.
   * Because an engaged error exceeds the deadband, the error test of the
   * convergence rule never fires: convergence means a small actuation.
   */
  function ApproachStep(g: Globals): (r: Outcome)
    // the history shifts and the derivative is the change of the error
    ensures r.next.derivative == (REF - g.meas) - g.error
    // nothing outside the control-error state changes
    ensures r.next.(prevError := g.prevError, error := g.error, derivative := g.derivative,
                    integral := g.integral, actuation := g.actuation) == g
    ensures !Engaged(g) ==>
      && r.cmds == []
      && r.next.prevError == g.error && r.next.error == REF - g.meas
      && r.next.integral == g.integral && r.next.actuation == g.actuation
    // anti-windup
    ensures Engaged(g) ==> |r.cmds| == 1 && r.next.integral == WoundIntegral(g)
    ensures Engaged(g) && Abs(g.actuation) > WINDUP_LIMIT ==> r.next.integral == 0.0
    // convergence
    ensures Engaged(g) ==> (r.cmds == [Idle] <==> Abs(RawActuation(g)) < MIN_ACTUATION)
    ensures r.cmds == [Idle] ==> r.next.actuation == 0.0 && r.next.error == 0.0 && r.next.prevError == 0.0
    // drive
    ensures Engaged(g) && r.cmds != [Idle] ==>
      && r.next.actuation == RawActuation(g)
      && Abs(r.next.actuation) >= MIN_ACTUATION
      && r.next.error == REF - g.meas && r.next.prevError == g.error
      && r.cmds == [DriveFor(if r.next.actuation < 0.0 then 1.0 else -1.0, r.next.actuation, false)]
    // at the reference distance nothing is sent
    ensures g.meas == REF ==> r.cmds == []
  {
    var prev := g.error;
    var err := REF - g.meas;
    var shifted := g.(prevError := prev, error := err, derivative := err - prev);
    if IsUp(g.behaviorState, APPROACH_MASK) && Abs(err) > DEADBAND then
      var integral := if Abs(g.actuation) > WINDUP_LIMIT then 0.0 else g.integral + err;
      var act := ControlLaw(K_P, K_I, K_D, err, integral, err - prev);
      if Abs(act) < MIN_ACTUATION || Abs(err) < MIN_ERROR then
        Outcome(shifted.(integral := integral, actuation := 0.0, error := 0.0, prevError := 0.0), [Idle])
      else if act < 0.0 then
        Outcome(shifted.(integral := integral, actuation := act), [DriveFor(1.0, act, false)])
      else
        Outcome(shifted.(integral := integral, actuation := act), [DriveFor(-1.0, act, false)])
    else
      Outcome(shifted, [])
  }

  /**
   * wallFollowController: with its flag up, the scripted 180-degree turn and
   * arc, both blocking, and the flag lowered; with it down, nothing. Only
   * the flag changes, and it is down afterwards either way.
   */
  function WallFollowStep(g: Globals): (r: Outcome)
    ensures !IsUp(r.next.behaviorState, WALLFOLLOW_MASK)
    ensures r.next == g.(behaviorState := Lower(g.behaviorState, WALLFOLLOW_MASK))
    ensures !IsUp(g.behaviorState, WALLFOLLOW_MASK) ==> r == Outcome(g, [])
    ensures IsUp(g.behaviorState, WALLFOLLOW_MASK) ==>
      r.cmds == [TurnFor(WALL_FOLLOW_TURNANGLE, WALL_FOLLOW_TURNRATE, true),
                 MoveArch(WALL_FOLLOW_ARCH_RADIUS, WALL_FOLLOW_ARCH_SPEED, true)]
  {
    LowerOnlyOwn(g.behaviorState, WALLFOLLOW_MASK);
    if IsUp(g.behaviorState, WALLFOLLOW_MASK) then
      Outcome(g.(behaviorState := Lower(g.behaviorState, WALLFOLLOW_MASK)),
              [TurnFor(WALL_FOLLOW_TURNANGLE, WALL_FOLLOW_TURNRATE, true),
               MoveArch(WALL_FOLLOW_ARCH_RADIUS, WALL_FOLLOW_ARCH_SPEED, true)])
    else
      Outcome(g, [])
  }

  /**
   * wanderController, given rand()'s value and the second post-turn reading
   * (the first is discarded). It always clears `distance` first. With its
   * flag up it turns by a whole-degree angle in [0, 360), drives forward
   * only when the converted reading is at least 20 inches, and always
   * lowers its own flag.
   */
  function WanderStep(g: Globals, randValue: nat, second: real): (r: Outcome)
    ensures !IsUp(r.next.behaviorState, WANDER_MASK)
    ensures !IsUp(g.behaviorState, WANDER_MASK) ==> r == Outcome(g.(distance := 0.0), [])
    ensures IsUp(g.behaviorState, WANDER_MASK) ==>
      && r.next == g.(distance := second, inches := second * CM_TO_INCHES,
                      behaviorState := Lower(g.behaviorState, WANDER_MASK))
      && |r.cmds| >= 1
      && r.cmds[0].TurnFor? && r.cmds[0].rate == WANDER_TURN_RATE && r.cmds[0].blocking
      && 0.0 <= r.cmds[0].angle < 360.0 && r.cmds[0].angle == (randValue % WANDER_ANGLE) as real
      && r.cmds[1..] == (if second * CM_TO_INCHES < WANDER_NEAR then [] else [DriveFor(WANDER_DIST, WANDER_SPEED, true)])
  {
    LowerOnlyOwn(g.behaviorState, WANDER_MASK);
    var turnAngle := (randValue % WANDER_ANGLE) as real;
    var cleared := g.(distance := 0.0);
    if IsUp(g.behaviorState, WANDER_MASK) then
      var inches := second * CM_TO_INCHES;
      var turned := cleared.(distance := second, inches := inches);
      if inches < WANDER_NEAR then
        Outcome(turned.(behaviorState := Lower(g.behaviorState, WANDER_MASK)),
                [TurnFor(turnAngle, WANDER_TURN_RATE, true)])
      else
        Outcome(turned.(behaviorState := Lower(g.behaviorState, WANDER_MASK)),
                [TurnFor(turnAngle, WANDER_TURN_RATE, true), DriveFor(WANDER_DIST, WANDER_SPEED, true)])
    else
      Outcome(cleared, [])
  }
}
