# Romi Sense-Think-Act controller

A Dafny model of the control core of an Arduino sketch for a Pololu Romi
robot (`src/main.cpp`). The sketch's `loop` is a state machine,
BEGIN → SENSE → THINK → ACT → SENSE …, that is meant to end in an
absorbing END state after `NUM_ITERATIONS` ACT cycles. With the board's
16-bit `int` it never does (see Findings). In ACT, an arbiter reads the
rangefinder measurement in inches and picks one of three behaviours:

- approach, a PID controller that holds the robot 6 inches from an obstacle;
- wall-follow, a scripted 180° turn followed by an arc;
- wander, a random turn and then a drive forward when the way ahead is clear.

The arbiter raises the chosen behaviour's bit in the byte `behaviorState`.
Approach's bit is lowered again by the arbiter. Wall-follow and wander lower
their own bits.

The model has two layers.

- **Values.** `RobotState.Globals` holds the sketch's globals. The PID
  state is named by meaning: `prevError` is the sketch's `eT`, `error` is
  `eT_deltaT`, `derivative` is `ddt_eT` and `integral` is `iEt`. The other
  globals keep their names. Each operation is a step function that
  returns the new globals and the commands sent to the chassis
  (`RobotState.Outcome`):
  - `Controllers.ApproachStep`, `Controllers.WallFollowStep` and
    `Controllers.WanderStep` for the three controllers;
  - `StateMachine.ArbiterStep` for the arbiter;
  - `StateMachine.Tick` for one call of `loop`;
  - `StateMachine.Run` for successive calls of `loop`.

  The properties of the sketch are stated and proved on these functions.
- **The sketch itself.** `Firmware.Robot` is a class whose fields are the
  globals, plus `log`, the commands sent to the chassis so far. Its methods
  update the fields step by step as the C++ does:
  - bits are set and cleared in place;
  - `wallFollowController` keeps its `while (true)` loop.

  Each method is proved to leave exactly the state, and append exactly the
  commands, that the matching step function gives.

The hardware enters only in two ways. `Motion.Command` values (`Idle`,
`DriveFor`, `TurnFor`, `MoveArch`) stand for the calls on `chassis`. The
rangefinder readings, `checkMotionComplete()` and `rand()` are fields of
`RobotState.Inputs`, given to each call of `loop`.

Places where the code does something easy to misread; the model follows the code:

- ACT counts the cycle and leaves ACT even when the chassis has not finished
  its motion. In that case the arbiter is skipped and nothing is sent.
- BEGIN clears the error state but not `actuation`, `distance` or `inches`.
- When the measurement equals the 6-inch reference, the error is 0. That is
  inside the 0.5 deadband, so approach sends nothing at all, not `Idle`.
- A measurement of exactly 6.0 is in the wall-follow band
  (5.75 ≤ meas ≤ 6.25), so it runs wall-follow, not approach.
- The comment beside the arbiter's approach test describes one band, but the
  guard is a disjunction of two: meas < 5.75, or 6.25 < meas ≤ 20.
- Approach's convergence test also checks abs(error) < 0.1. That test can
  never decide anything, because the controller only runs when abs(error) > 0.5.

## Model

| member | source | states |
|---|---|---|
| Behavior.Arbitrate | src/main.cpp:411-432 | exactly one behaviour is chosen for every measurement: approach iff meas < 5.75 or 6.25 < meas ≤ 20, wall-follow iff 5.75 ≤ meas ≤ 6.25, wander iff meas > 20 |
| Behavior.Mask | src/main.cpp:52-54 | each behaviour has its own bit: 0x01 approach, 0x02 wander, 0x04 wall-follow, and a bit identifies its behaviour |
| Behavior.RaiseThenLower | src/main.cpp:413-415 | raising a bit then clearing it leaves every other bit as it was and the raised bit down |
| Behavior.LowerOnlyOwn | src/main.cpp:204-208 | `flags &= ~mask` (also at lines 161 and 415) clears the mask's bit, keeps every bit outside the mask, never sets a bit, and changes nothing when the behaviour's bit was already clear |
| Pid.Abs | src/main.cpp:239 | `fabs` is non-negative and equals x or -x |
| Pid.ControlLaw | src/main.cpp:218-222 | the PID sum is 0 with zero error state, and with non-negative gains it has the sign of error, integral and derivative when these share a sign |
| Controllers.ApproachStep | src/main.cpp:229-299 | the history always shifts (prevError := error, error := ref − meas, derivative := their difference) and no other global outside the error state changes. With the approach bit clear or abs(error) ≤ 0.5: no command, and integral and actuation are kept. Otherwise: integral reset when the previous abs(actuation) > 10, else accumulated. Idle, with actuation, error and prevError zeroed, exactly when abs(4.7e + 0.01i + 2.3d) < 0.2. Else one non-blocking DriveFor(+1, actuation) for negative actuation or DriveFor(−1, actuation) otherwise, with abs(actuation) ≥ 0.2. At meas = ref nothing is sent |
| Controllers.WallFollowStep | src/main.cpp:150-166 | with its bit up: exactly TurnFor(180, 15, blocking) then MoveArch(10, 25, blocking), and only its own bit lowered. With its bit clear: nothing changes and nothing is sent |
| Controllers.WanderStep | src/main.cpp:176-211 | `distance` is zeroed. With its bit up: one blocking TurnFor at rate 15 with angle rand() mod 360 in [0, 360); distance is the second reading and inches = distance × 0.393701; then a blocking DriveFor(10, 7) iff inches ≥ 20; its own bit is lowered either way. With its bit clear nothing is sent |
| StateMachine.ApproachBehavior | src/main.cpp:411-416 | the commands and new globals are exactly those of the approach controller run with APPROACH raised, with APPROACH then lowered: only the control-error state and that bit change (the bit ends down); outside the 0.5 deadband around the 6-inch reference exactly one command goes out (Idle or a non-blocking drive), inside it none |
| StateMachine.ArbiterStep | src/main.cpp:398-437 | motion not complete: nothing changes, nothing is sent. Otherwise the chosen behaviour's controller runs with its bit raised (approach via ApproachBehavior, then WallFollowStep or WanderStep exactly), exactly that bit ends lowered and the others are kept; approach sends one Idle or non-blocking drive iff the error is outside the deadband; wall-follow sends its two-command script; wander sends TurnFor(rand() mod 360, 15, blocking) and then DriveFor(10, 7) iff the second reading is at least 20 inches; only approach touches the error state and only wander the readings |
| StateMachine.Advance | src/main.cpp:440-448 | ACT's counter goes up by one, and the next state is END exactly when the new count reaches 50000, else SENSE |
| StateMachine.Tick | src/main.cpp:343-455 | BEGIN: flags, counter, meas and the error state are cleared, wallFollowState set to ARCH, actuation kept, go to SENSE. SENSE keeps the second reading and goes to THINK. THINK sets inches = meas = distance × 0.393701 and goes to ACT. ACT runs the arbiter (its commands and globals are exactly ArbiterStep's), then counts the cycle and goes to SENSE below 50000, else END; with motion not complete nothing else changes and nothing is sent. END sends Idle and changes nothing. No call ever raises a bit that was down |
| StateMachine.RunWithAppend | src/main.cpp:343 | successive calls compose: running a then b is running a + b, globals and commands alike |
| StateMachine.PhaseAfter | src/main.cpp:347-449 | from BEGIN, after k calls, the state is BEGIN (k = 0), then SENSE/THINK/ACT by (k − 1) mod 3, END once (k − 1) div 3 reaches 50000; the counter is the number of completed ACT cycles, capped at 50000, whatever the sensors and chassis report |
| StateMachine.TickFollowsPhase | src/main.cpp:364-448 | one call moves the loop from the phase after k calls to the phase after k + 1 calls |
| StateMachine.TerminatesAtCap | src/main.cpp:440-448 | with NUM_ITERATIONS = 50000 (line 63), from BEGIN the loop is in END iff at least 1 + 3 × 50000 calls have been made, the counter is then 50000, and after the first call it is always between 0 and 50000 |
| StateMachine.EndAbsorbing | src/main.cpp:451-453 | in END every call leaves the globals unchanged and sends one Idle: n calls send n Idles |
| StateMachine.RunNeverRaisesFlags | src/main.cpp:411-432 | across any number of calls no behaviour bit comes up that was not up at the start |
| StateMachine.FlagsDownBetweenCalls | src/main.cpp:350-432 | from BEGIN, after the first call every bit of behaviorState is 0 between calls: a behaviour's bit is up only while its own controller runs |
| StateMachine.AdvanceOnAvr | src/main.cpp:440-448 | with `testIteration` a 16-bit `int`, ACT always returns to SENSE, and the counter goes up by one below 32767 |
| StateMachine.AvrCounterWraps | src/main.cpp:440-448 | at 32767 the 16-bit counter wraps to −32768 and the loop still goes back to SENSE |
| RobotState.Initial | src/main.cpp:72-97 | the globals start in BEGIN with no behaviour bit up and the counter at 0 |
| Firmware.Robot.constructor | src/main.cpp:72-97 | the fields start with their declared values and nothing has been sent |
| Firmware.Robot.ApproachController | src/main.cpp:229-299 | the in-place update of the globals and the commands sent are exactly ApproachStep's |
| Firmware.Robot.WallFollowController | src/main.cpp:150-166 | the `while (true)` loop ends with exactly WallFollowStep's state and commands |
| Firmware.Robot.WanderController | src/main.cpp:176-211 | the in-place update and commands are exactly WanderStep's, given rand()'s value and the two readings |
| Firmware.Robot.Arbiter | src/main.cpp:398-437 | the in-place raise/controller/lower sequence gives exactly ArbiterStep's state and commands |
| Firmware.Robot.Loop | src/main.cpp:343-455 | one call of `loop` leaves exactly Tick's state and appends exactly Tick's commands |

## Left out

- Serial printing, `setLED`/`digitalWrite`, `delay`, `pinMode` and `setup` (src/main.cpp:312-336) are board bring-up and logging with no effect on the globals. `setup`'s initial `driveFor(1, 1, true)` and `idle()` come before the first `loop` and are not part of the model.
- The `Chassis` and `Rangefinder` libraries are not part of this model. Their calls become `Motion.Command` values appended to the log. Their answers (`getDistance`, `checkMotionComplete`) become `RobotState.Inputs`.
- `rand()` becomes the parameter `randValue: nat`. The wander angle is `randValue % 360`, which is in [0, 360) as the sketch's is.
- `float` arithmetic becomes `real`: rounding and NaN are not modelled. With NaN no arbiter band matches, and that case is out of the model's scope.
- Declared but unused items are not modelled: the IR decoder, `keyPress`, `wanderActivated`, `wallFollowActivated`, `MAX_REPS`, `DARK_THRESHOLD` and the rectangle-drive constants. `wallFollowState` is kept as a field, but the sketch only ever resets it.
- The first of wander's two rangefinder readings is passed in but overwritten straight away, as in the sketch, so it affects nothing.
- StateMachine.Advance: the counter is an unbounded integer. The 16-bit `int` of the board is modelled separately by StateMachine.AdvanceOnAvr; see Findings.

## Findings

| source | as written | input that shows it | evidently intended | confidence | as-written member | corrected member |
|---|---|---|---|---|---|---|
| src/main.cpp:440-448 | `testIteration` (line 97) is an `int`, which is 16 bits on the ATmega32U4, but is compared against `NUM_ITERATIONS` = 50000 > 32767, so `testIteration < NUM_ITERATIONS` always holds; END is never reached, and past 32767 the increment overflows (wrapping to −32768 on this target) | `testIteration` = 32767 at an ACT step: the counter becomes −32768 and the loop returns to SENSE | the loop stops in END after 50000 ACT cycles (a counter wide enough for 50000, e.g. `long` or `uint16_t`) | not executed | StateMachine.AdvanceOnAvr (StateMachine.AvrCounterWraps) | StateMachine.Advance (StateMachine.TerminatesAtCap) |
