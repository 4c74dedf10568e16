// The sketch itself: its globals as the fields of one object, the command
// log standing for the chassis, and `loop` with the controllers it calls,
// each proved to do what the corresponding step of the state machine does.
module Firmware {
  import opened Motion
  import opened Behavior
  import opened Pid
  import opened RobotState
  import opened Controllers
  import opened StateMachine

  class Robot {
    var state: LoopState
    var wallFollowState: WallFollowPhase
    var behaviorState: bv8
    var distance: real
    var inches: real
    var meas: real
    var prevError: real      // eT
    var error: real          // eT_deltaT
    var derivative: real     // ddt_eT
    var integral: real       // iEt
    var actuation: real
    var testIteration: int
    /** Every command sent to the chassis, oldest first. */
    var log: seq<Command>

    /** The globals as one value. */
    ghost function Snapshot(): Globals
      reads this
    {
      Globals(state, wallFollowState, behaviorState, distance, inches, meas,
              prevError, error, derivative, integral, actuation, testIteration)
    }

    /** The globals with the values they are declared with; nothing sent yet. */
    constructor ()
      ensures Snapshot() == Initial() && log == []
    {
      state := Begin;
      wallFollowState := Arch;
      behaviorState := 0;
      distance, inches := 0.0, 0.0;
      meas := 0.0;
      prevError, error, derivative, integral, actuation := 0.0, 0.0, 0.0, 0.0, 0.0;
      testIteration := 0;
      log := [];
    }

    /** approachController. */
    method ApproachController()
      modifies this
      ensures Snapshot() == ApproachStep(old(Snapshot())).next
      ensures log == old(log) + ApproachStep(old(Snapshot())).cmds
    {
      prevError := error;
      error := REF - meas;
      derivative := error - prevError;
      if IsUp(behaviorState, APPROACH_MASK) && Abs(error) > DEADBAND {
        if Abs(actuation) > WINDUP_LIMIT {
          integral := 0.0;
        } else {
          integral := integral + error;
        }
        actuation := ControlLaw(K_P, K_I, K_D, error, integral, derivative);
        if Abs(actuation) < MIN_ACTUATION || Abs(error) < MIN_ERROR {
          actuation := 0.0;
          error := 0.0;
          prevError := 0.0;
          log := log + [Idle];
        } else if actuation < 0.0 {
          log := log + [DriveFor(1.0, actuation, false)];
        } else {
          log := log + [DriveFor(-1.0, actuation, false)];
        }
      }
    }

    /**
     * wallFollowController: repeats the scripted turn and arc while its flag
     * is up; the script lowers the flag, so the body runs at most once.
     */
    method WallFollowController()
      modifies this
      ensures Snapshot() == WallFollowStep(old(Snapshot())).next
      ensures log == old(log) + WallFollowStep(old(Snapshot())).cmds
    {
      while true
        invariant
          || (Snapshot() == old(Snapshot()) && log == old(log))
          || (Snapshot() == WallFollowStep(old(Snapshot())).next
              && log == old(log) + WallFollowStep(old(Snapshot())).cmds
              && !IsUp(behaviorState, WALLFOLLOW_MASK))
        decreases if IsUp(behaviorState, WALLFOLLOW_MASK) then 1 else 0
      {
        if IsUp(behaviorState, WALLFOLLOW_MASK) {
          log := log + [TurnFor(WALL_FOLLOW_TURNANGLE, WALL_FOLLOW_TURNRATE, true)];
          log := log + [MoveArch(WALL_FOLLOW_ARCH_RADIUS, WALL_FOLLOW_ARCH_SPEED, true)];
          behaviorState := Lower(behaviorState, WALLFOLLOW_MASK);
        } else {
          break;
        }
      }
    }

    /**
     * wanderController, given rand()'s value and the two readings the
     * rangefinder gives after the turn.
     */
    method WanderController(randValue: nat, firstReading: real, secondReading: real)
      modifies this
      ensures Snapshot() == WanderStep(old(Snapshot()), randValue, secondReading).next
      ensures log == old(log) + WanderStep(old(Snapshot()), randValue, secondReading).cmds
    {
      var turnAngle := (randValue % WANDER_ANGLE) as real;
      distance := 0.0;
      if IsUp(behaviorState, WANDER_MASK) {
        log := log + [TurnFor(turnAngle, WANDER_TURN_RATE, true)];
        distance := firstReading;
        distance := secondReading;
        inches := distance * CM_TO_INCHES;
        if inches < WANDER_NEAR {
          behaviorState := Lower(behaviorState, WANDER_MASK);
        } else {
          log := log + [DriveFor(WANDER_DIST, WANDER_SPEED, true)];
          behaviorState := Lower(behaviorState, WANDER_MASK);
        }
      }
    }

    /**
     * The arbiter of loop's ACT case: once the chassis reports its motion
     * complete, raise the flag of the behaviour whose band holds the
     * measurement and run that controller; approach's flag is lowered again
     * here, the other controllers lower their own.
     */
    method Arbiter(inputs: Inputs)
      modifies this
      ensures Snapshot() == ArbiterStep(old(Snapshot()), inputs).next
      ensures log == old(log) + ArbiterStep(old(Snapshot()), inputs).cmds
    {
      if inputs.motionComplete {
        if (meas <= APPROACH_RANGE && meas > FOLLOW_HIGH) || (meas <= APPROACH_RANGE && meas < FOLLOW_LOW) {
          behaviorState := Raise(behaviorState, APPROACH_MASK);
          ApproachController();
          behaviorState := Lower(behaviorState, APPROACH_MASK);
        } else if FOLLOW_LOW <= meas && meas <= FOLLOW_HIGH {
          behaviorState := Raise(behaviorState, WALLFOLLOW_MASK);
          WallFollowController();
        } else if meas > APPROACH_RANGE {
          behaviorState := Raise(behaviorState, WANDER_MASK);
          WanderController(inputs.randValue, inputs.wanderFirst, inputs.wanderSecond);
        }
      }
    }

    /** One call of `loop`, given what the hardware answers during it. */
    method Loop(inputs: Inputs)
      modifies this
      ensures Snapshot() == Tick(old(Snapshot()), inputs).next
      ensures log == old(log) + Tick(old(Snapshot()), inputs).cmds
    {
      match state
      case Begin =>
        behaviorState := 0;
        testIteration := 0;
        meas := 0.0;
        prevError := 0.0;
        error := 0.0;
        derivative := 0.0;
        integral := 0.0;
        wallFollowState := Arch;
        state := Sense;
      case Sense =>
        distance := inputs.senseFirst;
        distance := inputs.senseSecond;
        state := Think;
      case Think =>
        inches := distance * CM_TO_INCHES;
        meas := inches;
        state := Act;
      case Act =>
        Arbiter(inputs);
        testIteration := testIteration + 1;
        if testIteration < NUM_ITERATIONS {
          state := Sense;
        } else {
          state := End;
        }
      case End =>
        log := log + [Idle];
    }
  }
}
