// The globals of the sketch, as one value, and what the hardware answers on a tick.
module RobotState {
  import opened Motion

  datatype LoopState = Begin | Sense | Think | Act | End

  /** `wallFollowState`: only ever reset to Arch; Turn is declared but unused. */
  datatype WallFollowPhase = Arch | Turn

  /**
   * The sketch's global variables. The control-error names of the source
   * are: prevError = eT, error = eT_deltaT, derivative = ddt_eT,
   * integral = iEt.
   */
  datatype Globals = Globals(
    state: LoopState,
    wallFollowState: WallFollowPhase,
    behaviorState: bv8,
    distance: real,        // last raw rangefinder reading, centimetres
    inches: real,          // last converted reading
    meas: real,            // measurement the arbiter and approach controller use
    prevError: real,
    error: real,
    derivative: real,
    integral: real,
    actuation: real,
    testIteration: int)

  /** The values the globals are declared with. */
  function Initial(): (g: Globals)
    ensures g.state == Begin && g.behaviorState == 0 && g.testIteration == 0
  {
    Globals(Begin, Arch, 0, 0.0, 0.0, 0.0, 0.0, 0.0, 0.0, 0.0, 0.0, 0)
  }

  /** The globals after a step, and the chassis commands the step sent, in order. */
  datatype Outcome = Outcome(next: Globals, cmds: seq<Command>)

  /**
   * What the hardware would answer during one call of `loop`: the two
   * rangefinder readings taken in SENSE (the first is discarded), the
   * chassis's motion-complete flag in ACT, the value of rand() and the two
   * readings taken by the wander controller after its turn.
   */
  datatype Inputs = Inputs(
    senseFirst: real,
    senseSecond: real,
    motionComplete: bool,
    randValue: nat,
    wanderFirst: real,
    wanderSecond: real)

  /** Centimetres to inches. */
  const CM_TO_INCHES: real := 0.393701
}
