// The top-level Sense-Think-Act state machine: one call of `loop` as a step,
// runs of many calls, and what holds along every run.
module StateMachine {
  import opened Motion
  import opened Behavior
  import opened RobotState
  import opened Pid
  import opened Controllers

  const NUM_ITERATIONS: int := 50000

  /**
   * The bookkeeping that closes every ACT step: count the cycle and go back
   * to SENSE while the count is below the cap, else to END. The counter is
   * an unbounded integer here; see AdvanceOnAvr for the sketch's 16-bit int.
   */
  function Advance(count: int): (r: (int, LoopState))
    ensures r.0 == count + 1
    ensures r.1 == End <==> NUM_ITERATIONS <= count + 1
    ensures r.1 == Sense || r.1 == End
  {
    var next := count + 1;
    (next, if next < NUM_ITERATIONS then Sense else End)
  }

  /**
   * The approach branch of the arbiter: raise APPROACH, run the approach
   * controller, lower APPROACH. Every other flag is left as it was, at most
   * one command is sent (Idle or a non-blocking drive), and the readings are
   * untouched.
   */
  function ApproachBehavior(g: Globals): (r: Outcome)
    // the approach controller runs with APPROACH up, and APPROACH is lowered afterwards
    ensures r.cmds == ApproachStep(g.(behaviorState := Raise(g.behaviorState, APPROACH_MASK))).cmds
    ensures r.next == ApproachStep(g.(behaviorState := Raise(g.behaviorState, APPROACH_MASK))).next
                        .(behaviorState := Lower(g.behaviorState, APPROACH_MASK))
    ensures r.next.behaviorState == Lower(g.behaviorState, APPROACH_MASK)
    // only the control-error state and the flag change
    ensures r.next.(prevError := g.prevError, error := g.error, derivative := g.derivative,
                    integral := g.integral, actuation := g.actuation, behaviorState := g.behaviorState) == g
    // outside the deadband exactly one command goes out, inside it none
    ensures Abs(REF - g.meas) > DEADBAND ==> |r.cmds| == 1
    ensures Abs(REF - g.meas) <= DEADBAND ==> r.cmds == []
    ensures forall c | c in r.cmds :: c == Idle || (c.DriveFor? && !c.blocking)
  {
    var o := ApproachStep(g.(behaviorState := Raise(g.behaviorState, APPROACH_MASK)));
    assert o.next.behaviorState == Raise(g.behaviorState, APPROACH_MASK);
    RaiseThenLower(g.behaviorState, APPROACH_MASK);
    Outcome(o.next.(behaviorState := Lower(o.next.behaviorState, APPROACH_MASK)), o.cmds)
  }

  /**
   * The arbiter in ACT: when the chassis reports its motion complete, raise
   * the chosen behaviour's flag and run its controller; approach's flag is
   * lowered again by the arbiter, the other two lower their own. Otherwise
   * nothing happens.
   */
  function ArbiterStep(g: Globals, inputs: Inputs): (r: Outcome)
    ensures !inputs.motionComplete ==> r == Outcome(g, [])
    // every behaviour lowers exactly its own flag and leaves the others as they were
    ensures inputs.motionComplete ==> r.next.behaviorState == Lower(g.behaviorState, Mask(Arbitrate(g.meas)))
    // approach: ApproachBehavior, whose contract ties it to ApproachStep run with APPROACH up
    // and APPROACH lowered afterwards
    ensures inputs.motionComplete && Arbitrate(g.meas) == Approach ==>
      && r == ApproachBehavior(g)
      && (forall c | c in r.cmds :: c == Idle || (c.DriveFor? && !c.blocking))
      && (|r.cmds| == 1 <==> Abs(REF - g.meas) > DEADBAND)
    // wall-follow: its controller runs with WALLFOLLOW up and sends its two-command script
    ensures inputs.motionComplete && Arbitrate(g.meas) == WallFollow ==>
      && r == WallFollowStep(g.(behaviorState := Raise(g.behaviorState, WALLFOLLOW_MASK)))
      && r.cmds == [TurnFor(WALL_FOLLOW_TURNANGLE, WALL_FOLLOW_TURNRATE, true),
                    MoveArch(WALL_FOLLOW_ARCH_RADIUS, WALL_FOLLOW_ARCH_SPEED, true)]
    // wander: its controller runs with WANDER up: the random turn, then a drive iff the way is clear
    ensures inputs.motionComplete && Arbitrate(g.meas) == Wander ==>
      && r == WanderStep(g.(behaviorState := Raise(g.behaviorState, WANDER_MASK)), inputs.randValue, inputs.wanderSecond)
      && 1 <= |r.cmds| <= 2
      && r.cmds[0] == TurnFor((inputs.randValue % WANDER_ANGLE) as real, WANDER_TURN_RATE, true)
      && (|r.cmds| == 2 <==> WANDER_NEAR <= inputs.wanderSecond * CM_TO_INCHES)
      && r.next.inches == inputs.wanderSecond * CM_TO_INCHES
    // only the approach controller touches the control-error state, and only wander the readings
    ensures Arbitrate(g.meas) != Approach ==>
      r.next.(behaviorState := g.behaviorState, distance := g.distance, inches := g.inches) == g
    ensures Arbitrate(g.meas) != Wander ==> r.next.distance == g.distance && r.next.inches == g.inches
  {
    if !inputs.motionComplete then
      Outcome(g, [])
    else
      match Arbitrate(g.meas)
      case Approach =>
        ApproachBehavior(g)
      case WallFollow =>
        RaiseThenLower(g.behaviorState, WALLFOLLOW_MASK);
        WallFollowStep(g.(behaviorState := Raise(g.behaviorState, WALLFOLLOW_MASK)))
      case Wander =>
        RaiseThenLower(g.behaviorState, WANDER_MASK);
        WanderStep(g.(behaviorState := Raise(g.behaviorState, WANDER_MASK)), inputs.randValue, inputs.wanderSecond)
  }

  /** One call of `loop`. */
  function Tick(g: Globals, inputs: Inputs): (r: Outcome)
    // no behaviour flag is up after a call unless it was up before it
    ensures Within(r.next.behaviorState, g.behaviorState)
    // BEGIN resets flags, counter, measurement and error state, but not the actuation
    ensures g.state == Begin ==>
      && r.cmds == []
      && r.next == g.(state := Sense, behaviorState := 0, testIteration := 0, meas := 0.0,
                      prevError := 0.0, error := 0.0, derivative := 0.0, integral := 0.0,
                      wallFollowState := Arch)
    // SENSE keeps the second reading; THINK converts it to inches as the measurement
    ensures g.state == Sense ==> r == Outcome(g.(distance := inputs.senseSecond, state := Think), [])
    ensures g.state == Think ==>
      r == Outcome(g.(inches := g.distance * CM_TO_INCHES, meas := g.distance * CM_TO_INCHES, state := Act), [])
    // ACT always counts the cycle, whether or not the motion was complete
    ensures g.state == Act ==>
      && r.next.testIteration == g.testIteration + 1
      && r.next.state == (if g.testIteration + 1 < NUM_ITERATIONS then Sense else End)
    // ACT runs the arbiter, then counts the cycle
    ensures g.state == Act ==>
      && r.cmds == ArbiterStep(g, inputs).cmds
      && r.next == ArbiterStep(g, inputs).next.(testIteration := g.testIteration + 1,
                                                state := if g.testIteration + 1 < NUM_ITERATIONS then Sense else End)
    ensures g.state == Act && !inputs.motionComplete ==>
      r == Outcome(g.(testIteration := g.testIteration + 1, state := r.next.state), [])
    // END is absorbing and only idles the chassis
    ensures g.state == End ==> r == Outcome(g, [Idle])
  {
    WithinRefl(g.behaviorState);
    match g.state
    case Begin =>
      Outcome(g.(behaviorState := 0, testIteration := 0, meas := 0.0, prevError := 0.0, error := 0.0,
                 derivative := 0.0, integral := 0.0, wallFollowState := Arch, state := Sense), [])
    case Sense =>
      Outcome(g.(distance := inputs.senseSecond, state := Think), [])
    case Think =>
      var inches := g.distance * CM_TO_INCHES;
      Outcome(g.(inches := inches, meas := inches, state := Act), [])
    case Act =>
      var o := ArbiterStep(g, inputs);
      LowerOnlyOwn(g.behaviorState, Mask(Arbitrate(g.meas)));
      var (count, next) := Advance(g.testIteration);
      Outcome(o.next.(testIteration := count, state := next), o.cmds)
    case End =>
      Outcome(g, [Idle])
  }

  /** Successive steps, one per element of `inputs`; the commands are concatenated. */
  function RunWith(step: (Globals, Inputs) -> Outcome, g: Globals, inputs: seq<Inputs>): Outcome
    decreases |inputs|
  {
    if inputs == [] then
      Outcome(g, [])
    else
      var first := step(g, inputs[0]);
      var rest := RunWith(step, first.next, inputs[1..]);
      Outcome(rest.next, first.cmds + rest.cmds)
  }

  /** Running `a` then `b` is running `a + b`, whatever the step. */
  lemma {:induction false} RunWithAppend(step: (Globals, Inputs) -> Outcome, g: Globals, a: seq<Inputs>, b: seq<Inputs>)
    ensures RunWith(step, g, a + b).next == RunWith(step, RunWith(step, g, a).next, b).next
    ensures RunWith(step, g, a + b).cmds == RunWith(step, g, a).cmds + RunWith(step, RunWith(step, g, a).next, b).cmds
    decreases |a|
  {
    if a == [] {
      assert a + b == b;
    } else {
      assert (a + b)[0] == a[0] && (a + b)[1..] == a[1..] + b;
      RunWithAppend(step, step(g, a[0]).next, a[1..], b);
    }
  }

  /** Successive calls of `loop`, one per element of `inputs`. */
  function Run(g: Globals, inputs: seq<Inputs>): Outcome {
    RunWith(Tick, g, inputs)
  }

  /** The phase the loop is in after k calls from BEGIN: BEGIN, then SENSE, THINK, ACT cycles until the cap, then END. */
  ghost function PhaseAt(k: nat): LoopState {
    if k == 0 then Begin
    else if (k - 1) / 3 >= NUM_ITERATIONS then End
    else if (k - 1) % 3 == 0 then Sense
    else if (k - 1) % 3 == 1 then Think
    else Act
  }

  /** The iteration counter after k >= 1 calls from BEGIN: completed ACT cycles, at most the cap. */
  ghost function CounterAt(k: nat): int
    requires k >= 1
  {
    if (k - 1) / 3 >= NUM_ITERATIONS then NUM_ITERATIONS else (k - 1) / 3
  }

  lemma DivByThreeStep(j: nat)
    ensures j % 3 < 2 ==> (j + 1) / 3 == j / 3 && (j + 1) % 3 == j % 3 + 1
    ensures j % 3 == 2 ==> (j + 1) / 3 == j / 3 + 1 && (j + 1) % 3 == 0
  {
  }

  /** One call moves the loop from phase k to phase k + 1. */
  lemma TickFollowsPhase(h: Globals, x: Inputs, k: nat)
    requires h.state == PhaseAt(k)
    requires k >= 1 ==> h.testIteration == CounterAt(k)
    ensures Tick(h, x).next.state == PhaseAt(k + 1)
    ensures Tick(h, x).next.testIteration == CounterAt(k + 1)
  {
    if k >= 1 {
      DivByThreeStep(k - 1);
    }
  }

  /**
   * From BEGIN, whatever the sensors and the chassis report, the phase and
   * the counter after any number of calls are exactly PhaseAt and CounterAt.
   */
  lemma {:induction false} PhaseAfter(g: Globals, inputs: seq<Inputs>)
    requires g.state == Begin
    ensures Run(g, inputs).next.state == PhaseAt(|inputs|)
    ensures |inputs| >= 1 ==> Run(g, inputs).next.testIteration == CounterAt(|inputs|)
    decreases |inputs|
  {
    var k := |inputs|;
    if k > 0 {
      var front := inputs[..k - 1];
      assert inputs == front + [inputs[k - 1]];
      RunWithAppend(Tick, g, front, [inputs[k - 1]]);
      PhaseAfter(g, front);
      var h := Run(g, front).next;
      assert Run(h, [inputs[k - 1]]).next == Tick(h, inputs[k - 1]).next;
      TickFollowsPhase(h, inputs[k - 1], k - 1);
    }
  }

  /**
   * Termination: from BEGIN the loop is in END, with the counter at the cap,
   * after exactly 1 + 3 * NUM_ITERATIONS calls, and not before.
   */
  lemma TerminatesAtCap(g: Globals, inputs: seq<Inputs>)
    requires g.state == Begin
    ensures Run(g, inputs).next.state == End <==> |inputs| >= 1 + 3 * NUM_ITERATIONS
    ensures |inputs| >= 1 + 3 * NUM_ITERATIONS ==> Run(g, inputs).next.testIteration == NUM_ITERATIONS
    ensures |inputs| >= 1 ==> 0 <= Run(g, inputs).next.testIteration <= NUM_ITERATIONS
  {
    PhaseAfter(g, inputs);
  }

  /** END never changes the globals and idles the chassis once per call. */
  lemma {:induction false} EndAbsorbing(g: Globals, inputs: seq<Inputs>)
    requires g.state == End
    ensures Run(g, inputs) == Outcome(g, seq(|inputs|, _ => Idle))
    decreases |inputs|
  {
    if inputs != [] {
      EndAbsorbing(g, inputs[1..]);
      assert [Idle] + seq(|inputs| - 1, _ => Idle) == seq(|inputs|, _ => Idle);
    }
  }

  /** No run raises a behaviour flag that was not already up when it started. */
  lemma {:induction false} RunNeverRaisesFlags(g: Globals, inputs: seq<Inputs>)
    ensures Within(Run(g, inputs).next.behaviorState, g.behaviorState)
    decreases |inputs|
  {
    if inputs == [] {
      WithinRefl(g.behaviorState);
    } else {
      var h := Tick(g, inputs[0]).next;
      RunNeverRaisesFlags(h, inputs[1..]);
      WithinTrans(Run(h, inputs[1..]).next.behaviorState, h.behaviorState, g.behaviorState);
    }
  }

  /**
   * From BEGIN, once BEGIN has run, every flag is down between calls: a
   * behaviour's flag is up only during its own controller's invocation.
   */
  lemma FlagsDownBetweenCalls(g: Globals, inputs: seq<Inputs>)
    requires g.state == Begin && |inputs| >= 1
    ensures Run(g, inputs).next.behaviorState == 0
  {
    assert inputs == [inputs[0]] + inputs[1..];
    RunWithAppend(Tick, g, [inputs[0]], inputs[1..]);
    var h := Run(g, [inputs[0]]).next;
    assert h.behaviorState == 0;
    RunNeverRaisesFlags(h, inputs[1..]);
    WithinRefl(Run(h, inputs[1..]).next.behaviorState);
  }

  // ---- the counter as the sketch declares it on the ATmega32U4 ----

  /** `int` on the ATmega32U4 is 16 bits wide. */
  newtype Int16 = x: int | -0x8000 <= x < 0x8000

  /** Two's-complement wrap-around to 16 bits. */
  function Wrap16(x: int): (r: Int16)
    ensures r as int % 0x1_0000 == x % 0x1_0000
  {
    ((x + 0x8000) % 0x1_0000 - 0x8000) as Int16
  }

  /**
   * ACT's bookkeeping with `testIteration` a 16-bit int: every 16-bit value
   * is below NUM_ITERATIONS = 50000, so the test always sends the loop back
   * to SENSE and END is never reached.
   */
  function AdvanceOnAvr(count: Int16): (r: (Int16, LoopState))
    ensures r.1 == Sense
    ensures count < 0x7FFF ==> r.0 as int == count as int + 1
  {
    var next := Wrap16(count as int + 1);
    (next, if (next as int) < NUM_ITERATIONS then Sense else End)
  }

  /** At 32767 the 16-bit counter wraps to -32768 and the loop still goes back to SENSE. */
  lemma AvrCounterWraps()
    ensures AdvanceOnAvr(0x7FFF) == (-0x8000, Sense)
  {
  }
}
